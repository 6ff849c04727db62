/**
 * `KeyboardAvoider`: keeps a container's bottom inset equal to its base value
 * plus the part of the keyboard that overlaps the container.
 */
module Avoidance {
  import opened Wrappers
  import opened Geometry
  import opened Notifications
  import opened KeyboardSubscription
  import opened Containers

  /** `UIViewAnimationOptions` and its raw value, a `UInt`. */
  datatype AnimationOptions = AnimationOptions(rawValue: nat)

  const TwoTo63: int := 0x8000_0000_0000_0000
  const TwoTo64: int := 0x1_0000_0000_0000_0000

  /** The raw curves whose shift by 16 bits fits a 64-bit `Int`: from -2^47 up to 2^47. */
  predicate ShiftFits(raw: int) {
    -0x8000_0000_0000 <= raw < 0x8000_0000_0000
  }

  /**
   * `raw << 16` on a 64-bit `Int`: bits shifted past the top are lost and the
   * result is read back as a signed value.
   */
  function ShiftLeft16(raw: int): (r: int)
    ensures -TwoTo63 <= r < TwoTo63
    ensures ShiftFits(raw) ==> r == raw * 0x1_0000
    ensures r % 0x1_0000 == 0
  {
    var u := (raw * 0x1_0000) % TwoTo64;
    if u < TwoTo63 then u else u - TwoTo64
  }

  /**
   * `UIViewAnimationOptions(curve)`: the curve's raw value shifted left by 16
   * bits, then converted with `UInt(_:)`, which traps on a negative value;
   * `None` stands for that trap.
   */
  function AnimationOptionsFromCurve(curve: AnimationCurve): (o: Option<AnimationOptions>)
    ensures o.None? <==> ShiftLeft16(curve.rawValue) < 0
    ensures ShiftFits(curve.rawValue) ==>
              (o.Some? <==> curve.rawValue >= 0) &&
              (o.Some? ==> o.value.rawValue == curve.rawValue * 0x1_0000)
  {
    var shifted := ShiftLeft16(curve.rawValue);
    if shifted < 0 then None else Some(AnimationOptions(shifted))
  }

  /** The curve an options value was built from, read back from bits 16 and up. */
  function CurveOfAnimationOptions(o: AnimationOptions): Option<AnimationCurve> {
    if o.rawValue % 0x1_0000 == 0 then CurveFromRaw(o.rawValue / 0x1_0000) else None
  }

  /** Every raw curve from 0 up to 2^47 gives options without trapping, and can be read back. */
  lemma AnimationOptionsRoundTrip(curve: AnimationCurve)
    requires 0 <= curve.rawValue < 0x8000_0000_0000
    ensures AnimationOptionsFromCurve(curve).Some?
    ensures CurveOfAnimationOptions(AnimationOptionsFromCurve(curve).value) == Some(curve)
  {
  }

  /** The named curves give 0, 65536, 131072 and 196608; an unnamed one such as 7 gives 458752. */
  lemma NamedCurveOptions()
    ensures AnimationOptionsFromCurve(EaseInOut) == Some(AnimationOptions(0))
    ensures AnimationOptionsFromCurve(EaseIn) == Some(AnimationOptions(65536))
    ensures AnimationOptionsFromCurve(EaseOut) == Some(AnimationOptions(131072))
    ensures AnimationOptionsFromCurve(Linear) == Some(AnimationOptions(196608))
    ensures AnimationOptionsFromCurve(AnimationCurve(7)) == Some(AnimationOptions(458752))
  {
  }

  /** A negative raw curve whose shift fits traps in `UInt(_:)`. */
  lemma NegativeCurveTraps(curve: AnimationCurve)
    requires -0x8000_0000_0000 <= curve.rawValue < 0
    ensures AnimationOptionsFromCurve(curve).None?
  {
  }

  /** Different curves that do not trap give different options. */
  lemma AnimationOptionsInjective(c1: AnimationCurve, c2: AnimationCurve)
    requires 0 <= c1.rawValue < 0x8000_0000_0000 && 0 <= c2.rawValue < 0x8000_0000_0000
    ensures AnimationOptionsFromCurve(c1) == AnimationOptionsFromCurve(c2) ==> c1 == c2
  {
    AnimationOptionsRoundTrip(c1);
    AnimationOptionsRoundTrip(c2);
  }

  /**
   * The `overlapHeight` observers: `willSet` takes the old height off the
   * bottom inset, `didSet` adds the new one.
   */
  function AssignOverlap(insets: EdgeInsets, oldHeight: real, newHeight: real): (r: EdgeInsets)
    ensures r.top == insets.top && r.left == insets.left && r.right == insets.right
    ensures r.bottom - insets.bottom == newHeight - oldHeight
  {
    var afterWillSet := insets.(bottom := insets.bottom - oldHeight);
    afterWillSet.(bottom := afterWillSet.bottom + newHeight)
  }

  /** `base` with `height` added to its bottom inset. */
  function Adjusted(base: EdgeInsets, height: real): EdgeInsets {
    base.(bottom := base.bottom + height)
  }

  /** Assigning the heights `hs` one after the other, starting from `height`. */
  function AssignAll(insets: EdgeInsets, height: real, hs: seq<real>): EdgeInsets
    decreases |hs|
  {
    if hs == [] then insets else AssignAll(AssignOverlap(insets, height, hs[0]), hs[0], hs[1..])
  }

  /** Assigning the current height again changes nothing. */
  lemma AssignSameHeight(insets: EdgeInsets, height: real)
    ensures AssignOverlap(insets, height, height) == insets
  {
  }

  /** Assigning 0 restores the base insets. */
  lemma AssignZeroRestores(base: EdgeInsets, height: real)
    ensures AssignOverlap(Adjusted(base, height), height, 0.0) == base
  {
  }

  /**
   * Adjustments do not accumulate: from the base insets adjusted by `height`,
   * any non-empty sequence of assignments leaves the base adjusted by the last
   * height assigned.
   */
  lemma {:induction false} AssignmentsDoNotAccumulate(base: EdgeInsets, height: real, hs: seq<real>)
    requires hs != []
    ensures AssignAll(Adjusted(base, height), height, hs) == Adjusted(base, hs[|hs| - 1])
    decreases |hs|
  {
    var next := AssignOverlap(Adjusted(base, height), height, hs[0]);
    assert next == Adjusted(base, hs[0]);
    if |hs| > 1 {
      AssignmentsDoNotAccumulate(base, hs[0], hs[1..]);
    }
  }

  class KeyboardAvoider {
    /** The container managed by this avoider (not owned by it). */
    const container: Container
    const keyboardSubscriber: KeyboardSubscriber
    /** The last inset adjustment made to avoid the keyboard. */
    var overlapHeight: real
    /** The container's insets without any keyboard adjustment. */
    ghost var baseInsets: EdgeInsets

    /** The container's insets are the base insets with `overlapHeight` added at the bottom. */
    ghost predicate Valid()
      reads this, container, keyboardSubscriber, keyboardSubscriber.notificationCenter
    {
      keyboardSubscriber.Valid() &&
      container.Insets() == Adjusted(baseInsets, overlapHeight)
    }

    /** Subscribed to keyboard events. */
    ghost predicate IsActive()
      reads this, keyboardSubscriber
    {
      keyboardSubscriber.observers != []
    }

    /** `init(keyboardSubscriber:container:)`; the stored default of `overlapHeight` runs no observer. */
    constructor (keyboardSubscriber: KeyboardSubscriber, container: Container)
      requires keyboardSubscriber.Valid()
      ensures Valid()
      ensures this.keyboardSubscriber == keyboardSubscriber && this.container == container
      ensures overlapHeight == 0.0 && baseInsets == container.Insets()
    {
      this.keyboardSubscriber := keyboardSubscriber;
      this.container := container;
      overlapHeight := 0.0;
      baseInsets := container.Insets();
    }

    /**
     * Assigning `overlapHeight`: the `willSet` and `didSet` read-modify-write
     * of `container.insets` around the store.
     */
    method SetOverlapHeight(newValue: real)
      requires Valid()
      modifies this, container
      ensures Valid()
      ensures overlapHeight == newValue && baseInsets == old(baseInsets)
      ensures container.Insets() == AssignOverlap(old(container.Insets()), old(overlapHeight), newValue)
      ensures container.OnlyInsetsWritten()
    {
      // willSet
      var insets := container.Insets();
      insets := insets.(bottom := insets.bottom - overlapHeight);
      container.SetInsets(insets);
      overlapHeight := newValue;
      // didSet
      insets := container.Insets();
      insets := insets.(bottom := insets.bottom + overlapHeight);
      container.SetInsets(insets);
    }

    /**
     * The handler `startSubscribing` installs: clip the keyboard's final frame,
     * converted into the container, to the container's bounds, and animate
     * `overlapHeight` to the height of that intersection. The animation is
     * taken to run to completion; its duration and options are returned.
     */
    method HandleKeyboardEvent(info: KeyboardEventInfo) returns (duration: real, options: Option<AnimationOptions>)
      requires Valid()
      modifies this, container
      ensures Valid() && baseInsets == old(baseInsets) && container.bounds == old(container.bounds)
      ensures options == AnimationOptionsFromCurve(info.animationCurve)
      ensures options.Some? ==>
                overlapHeight == IntersectionHeight(container.bounds, container.ConvertRect(info.finalFrame)) &&
                0.0 <= overlapHeight <= SpanY(container.bounds)
      ensures options.Some? ==> container.OnlyInsetsWritten()
      ensures options.None? ==> unchanged(this, container)
      ensures duration == info.animationDuration
    {
      var rect := container.ConvertRect(info.finalFrame);
      var intersection := IntersectionHeight(container.bounds, rect);
      options := AnimationOptionsFromCurve(info.animationCurve);
      duration := info.animationDuration;
      if options.Some? {
        SetOverlapHeight(intersection);
      }
    }

    /** `startSubscribing()`: subscribes to `.KeyboardWillChangeFrame` only, with this avoider's handler. */
    method StartSubscribing()
      requires Valid()
      modifies keyboardSubscriber, keyboardSubscriber.notificationCenter
      ensures Valid() && IsActive()
      ensures keyboardSubscriber.options == KeyboardWillChangeFrame && keyboardSubscriber.onEvent == Some(this)
      ensures |keyboardSubscriber.observers| == 1
      ensures keyboardSubscriber.Registered() ==
                {(UIKeyboardWillChangeFrame, ObserverBlock(KeyboardWillChangeFrame, Some(this)))}
      ensures keyboardSubscriber.Others() == old(keyboardSubscriber.Others())
      ensures keyboardSubscriber.notificationCenter.entries == old(keyboardSubscriber.Others()) + keyboardSubscriber.Own()
      ensures keyboardSubscriber.notificationCenter.nextToken >= old(keyboardSubscriber.notificationCenter.nextToken)
      ensures forall t | t in keyboardSubscriber.observers :: t >= old(keyboardSubscriber.notificationCenter.nextToken)
      ensures overlapHeight == old(overlapHeight) && baseInsets == old(baseInsets)
      ensures container.Insets() == old(container.Insets())
    {
      keyboardSubscriber.SubscribeToKeyboardEvents(KeyboardWillChangeFrame, Some(this));
      CorrespondingNotificationsOfOne(KeyboardWillChangeFrame);
    }

    /** `stopSubscribing()`: unsubscribes; the last adjustment stays in place. */
    method StopSubscribing()
      requires Valid()
      modifies keyboardSubscriber, keyboardSubscriber.notificationCenter
      ensures Valid() && !IsActive()
      ensures keyboardSubscriber.notificationCenter.entries == old(keyboardSubscriber.Others())
      ensures keyboardSubscriber.Others() == old(keyboardSubscriber.Others())
      ensures keyboardSubscriber.notificationCenter.nextToken == old(keyboardSubscriber.notificationCenter.nextToken)
      ensures overlapHeight == old(overlapHeight) && baseInsets == old(baseInsets)
      ensures container.Insets() == old(container.Insets())
    {
      keyboardSubscriber.StopReceivingKeyboardEvents();
    }

    /**
     * A notification reaches this avoider: the centre runs the subscriber's
     * blocks, and a call addressed to this avoider runs its handler.
     */
    method ReceiveNotification(name: NotificationName, info: Option<UserInfo>)
      requires Valid()
      modifies this, container
      ensures Valid() && baseInsets == old(baseInsets)
      ensures if keyboardSubscriber.onEvent == Some(this) && IsSelected(keyboardSubscriber.options, name) &&
                 AnimationOptionsFromCurve(MakeEventInfo(info, OptionFor(name).value).animationCurve).Some?
              then overlapHeight == IntersectionHeight(old(container.bounds),
                                                       container.ConvertRect(MakeEventInfo(info, OptionFor(name).value).finalFrame)) &&
                   container.OnlyInsetsWritten()
              else unchanged(this, container)
    {
      var calls := keyboardSubscriber.Deliver(name, info);
      if calls != [] && calls[0].target == this {
        assert calls[0] in calls;
        var _, _ := HandleKeyboardEvent(calls[0].event);
      }
    }
  }

  /** Calling `startSubscribing` twice leaves a single registration. */
  method StartTwice(a: KeyboardAvoider)
    requires a.Valid()
    modifies a.keyboardSubscriber, a.keyboardSubscriber.notificationCenter
    ensures a.Valid() && |a.keyboardSubscriber.observers| == 1
    ensures a.keyboardSubscriber.Others() == old(a.keyboardSubscriber.Others())
  {
    a.StartSubscribing();
    a.StartSubscribing();
  }
}
