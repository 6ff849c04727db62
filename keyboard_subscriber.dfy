/**
 * Keyboard event subscription: the `KeyboardEventOptions` option set, its
 * pairing with the keyboard notifications, the defaulting decoder that builds a
 * `KeyboardEventInfo` from a notification payload, and `KeyboardSubscriber`,
 * which keeps its observer registrations in a notification centre.
 */
module KeyboardSubscription {
  import opened Wrappers
  import opened Geometry
  import opened Notifications

  /** An `OptionSet` over a Swift `Int` raw value; only bits 0 to 5 are ever used, so 64 bits stand for it. */
  datatype KeyboardEventOptions = KeyboardEventOptions(rawValue: bv64)

  const KeyboardWillChangeFrame: KeyboardEventOptions := KeyboardEventOptions(1 << 0)
  const KeyboardDidChangeFrame: KeyboardEventOptions := KeyboardEventOptions(1 << 1)
  const KeyboardWillShow: KeyboardEventOptions := KeyboardEventOptions(1 << 2)
  const KeyboardDidShow: KeyboardEventOptions := KeyboardEventOptions(1 << 3)
  const KeyboardWillHide: KeyboardEventOptions := KeyboardEventOptions(1 << 4)
  const KeyboardDidHide: KeyboardEventOptions := KeyboardEventOptions(1 << 5)

  /** The empty option set `[]`. */
  const NoOptions: KeyboardEventOptions := KeyboardEventOptions(0)

  /** `OptionSet.contains`: every bit of `member` is set in `options`. */
  predicate Contains(options: KeyboardEventOptions, member: KeyboardEventOptions) {
    (options.rawValue & member.rawValue) == member.rawValue
  }

  /** `OptionSet.union` */
  function Union(a: KeyboardEventOptions, b: KeyboardEventOptions): KeyboardEventOptions {
    KeyboardEventOptions(a.rawValue | b.rawValue)
  }

  /** One of the six declared options. */
  predicate IsKeyboardEvent(o: KeyboardEventOptions) {
    o == KeyboardWillChangeFrame || o == KeyboardDidChangeFrame || o == KeyboardWillShow ||
    o == KeyboardDidShow || o == KeyboardWillHide || o == KeyboardDidHide
  }

  /**
   * Each declared option is a single bit among bits 0 to 5, two different
   * options share no bit, and together they cover exactly bits 0 to 5.
   */
  lemma OptionsAreDistinctBits(a: KeyboardEventOptions, b: KeyboardEventOptions)
    requires IsKeyboardEvent(a) && IsKeyboardEvent(b)
    ensures a.rawValue != 0 && (a.rawValue & (a.rawValue - 1)) == 0
    ensures (a.rawValue & !0x3F) == 0
    ensures a != b ==> (a.rawValue & b.rawValue) == 0
    ensures Contains(a, b) <==> a == b
  {
  }

  lemma AllOptionsCoverLowSixBits()
    ensures Union(Union(Union(KeyboardWillChangeFrame, KeyboardDidChangeFrame), Union(KeyboardWillShow, KeyboardDidShow)),
                  Union(KeyboardWillHide, KeyboardDidHide)).rawValue == 0x3F
  {
  }

  /** The dictionary `corespondingNotifications` pairs the options with. */
  const Pairing: map<KeyboardEventOptions, NotificationName> := map[
    KeyboardWillChangeFrame := UIKeyboardWillChangeFrame,
    KeyboardDidChangeFrame := UIKeyboardDidChangeFrame,
    KeyboardWillShow := UIKeyboardWillShow,
    KeyboardDidShow := UIKeyboardDidShow,
    KeyboardWillHide := UIKeyboardWillHide,
    KeyboardDidHide := UIKeyboardDidHide
  ]

  /** The option a keyboard notification name is paired with; `None` for any other name. */
  function OptionFor(name: NotificationName): (o: Option<KeyboardEventOptions>)
    ensures o.Some? <==> !name.OtherNotification?
    ensures o.Some? ==> o.value in Pairing && Pairing[o.value] == name && IsKeyboardEvent(o.value)
  {
    match name
    case UIKeyboardWillChangeFrame => Some(KeyboardWillChangeFrame)
    case UIKeyboardDidChangeFrame => Some(KeyboardDidChangeFrame)
    case UIKeyboardWillShow => Some(KeyboardWillShow)
    case UIKeyboardDidShow => Some(KeyboardDidShow)
    case UIKeyboardWillHide => Some(KeyboardWillHide)
    case UIKeyboardDidHide => Some(KeyboardDidHide)
    case OtherNotification(_) => None
  }

  datatype NotificationPair = NotificationPair(option: KeyboardEventOptions, notification: NotificationName)

  /**
   * `corespondingNotifications()`: the (option, notification) pairs of the
   * dictionary whose option the set contains. Swift returns them in dictionary
   * order, which is unspecified, so the result is a set.
   */
  function CorrespondingNotifications(options: KeyboardEventOptions): (r: set<NotificationPair>)
    ensures forall p | p in r :: OptionFor(p.notification) == Some(p.option) && Contains(options, p.option)
  {
    set o | o in Pairing && Contains(options, o) :: NotificationPair(o, Pairing[o])
  }

  /** `name` is one of the notifications `options` selects. */
  predicate IsSelected(options: KeyboardEventOptions, name: NotificationName) {
    OptionFor(name).Some? && Contains(options, OptionFor(name).value)
  }

  /**
   * A pair is in the result exactly when it is one of the six pairs of the
   * dictionary and its option is contained in the set.
   */
  lemma CorrespondingNotificationsExact(options: KeyboardEventOptions, p: NotificationPair)
    ensures p in CorrespondingNotifications(options) <==>
              OptionFor(p.notification) == Some(p.option) && Contains(options, p.option)
  {
    if OptionFor(p.notification) == Some(p.option) {
      assert p == NotificationPair(p.option, Pairing[p.option]);
    }
  }

  /** Exactly the selected names appear, each once, with the option it is paired with. */
  lemma CorrespondingNotificationsByName(options: KeyboardEventOptions, name: NotificationName)
    ensures IsSelected(options, name) <==> exists p :: p in CorrespondingNotifications(options) && p.notification == name
    ensures forall p | p in CorrespondingNotifications(options) && p.notification == name :: Some(p.option) == OptionFor(name)
  {
    if IsSelected(options, name) {
      CorrespondingNotificationsExact(options, NotificationPair(OptionFor(name).value, name));
    }
    forall p | p in CorrespondingNotifications(options) && p.notification == name
      ensures Some(p.option) == OptionFor(name)
    {
      CorrespondingNotificationsExact(options, p);
    }
  }

  /** The empty option set selects no notification. */
  lemma CorrespondingNotificationsOfNothing()
    ensures CorrespondingNotifications(NoOptions) == {}
  {
  }

  /** Selecting a union selects the union of the notifications. */
  lemma CorrespondingNotificationsUnion(a: KeyboardEventOptions, b: KeyboardEventOptions)
    ensures CorrespondingNotifications(Union(a, b)) == CorrespondingNotifications(a) + CorrespondingNotifications(b)
  {
    forall p
      ensures p in CorrespondingNotifications(Union(a, b)) <==>
                p in CorrespondingNotifications(a) + CorrespondingNotifications(b)
    {
      CorrespondingNotificationsExact(Union(a, b), p);
      CorrespondingNotificationsExact(a, p);
      CorrespondingNotificationsExact(b, p);
      if OptionFor(p.notification) == Some(p.option) {
        ContainsUnion(a, b, p.option);
      }
    }
  }

  /** A union contains a declared option iff one of its operands does. */
  lemma ContainsUnion(a: KeyboardEventOptions, b: KeyboardEventOptions, o: KeyboardEventOptions)
    requires IsKeyboardEvent(o)
    ensures Contains(Union(a, b), o) <==> Contains(a, o) || Contains(b, o)
  {
    if o == KeyboardWillChangeFrame {
    } else if o == KeyboardDidChangeFrame {
    } else if o == KeyboardWillShow {
    } else if o == KeyboardDidShow {
    } else if o == KeyboardWillHide {
    } else {
    }
  }

  /** A single option selects exactly its own notification. */
  lemma CorrespondingNotificationsOfOne(o: KeyboardEventOptions)
    requires o in Pairing
    ensures CorrespondingNotifications(o) == {NotificationPair(o, Pairing[o])}
  {
    forall p
      ensures p in CorrespondingNotifications(o) <==> p == NotificationPair(o, Pairing[o])
    {
      CorrespondingNotificationsExact(o, p);
    }
  }

  // ---------------------------------------------------------------------------
  // Event info

  /**
   * `UIViewAnimationCurve`. It is an imported C enumeration, so every raw
   * `Int` is a value of the type, not only the four named cases.
   */
  datatype AnimationCurve = AnimationCurve(rawValue: int)

  const EaseInOut: AnimationCurve := AnimationCurve(0)
  const EaseIn: AnimationCurve := AnimationCurve(1)
  const EaseOut: AnimationCurve := AnimationCurve(2)
  const Linear: AnimationCurve := AnimationCurve(3)

  /** One of the four curves the enumeration names. */
  predicate IsNamedCurve(c: AnimationCurve) {
    0 <= c.rawValue <= 3
  }

  /**
   * `UIViewAnimationCurve(rawValue:)`. Imported from C, this initialiser never
   * fails: it keeps whatever raw value it is given.
   */
  function CurveFromRaw(raw: int): (c: Option<AnimationCurve>)
    ensures c.Some? && c.value.rawValue == raw
    ensures IsNamedCurve(c.value) <==> 0 <= raw <= 3
  {
    Some(AnimationCurve(raw))
  }

  /** The keys of a keyboard notification's `userInfo`. */
  datatype UserInfoKey = FrameBeginKey | FrameEndKey | AnimationDurationKey | AnimationCurveKey | OtherKey(key: string)

  /** The values a `userInfo` entry may hold: an `NSValue` rectangle, a number, or anything else. */
  datatype UserInfoValue = RectValue(rect: Rect) | DoubleValue(double: real) | IntValue(number: int) | OtherValue

  type UserInfo = map<UserInfoKey, UserInfoValue>

  datatype KeyboardEventInfo = KeyboardEventInfo(
    eventType: KeyboardEventOptions,
    initialFrame: Rect,
    finalFrame: Rect,
    animationCurve: AnimationCurve,
    animationDuration: real)

  /** `(info?[key] as? NSValue)?.cgRectValue` */
  function RectEntry(info: Option<UserInfo>, key: UserInfoKey): Option<Rect> {
    if info.Some? && key in info.value && info.value[key].RectValue? then Some(info.value[key].rect) else None
  }

  /** `info?[key] as? Double` */
  function DoubleEntry(info: Option<UserInfo>, key: UserInfoKey): Option<real> {
    if info.Some? && key in info.value && info.value[key].DoubleValue? then Some(info.value[key].double) else None
  }

  /** `info?[key] as? Int` */
  function IntEntry(info: Option<UserInfo>, key: UserInfoKey): Option<int> {
    if info.Some? && key in info.value && info.value[key].IntValue? then Some(info.value[key].number) else None
  }

  /**
   * `KeyboardEventInfo.init(info:type:)`: every field that is missing or has
   * the wrong type falls back to a default: the zero rectangle, a duration of
   * 0, and raw curve 0. The `?? .linear` after the curve's initialiser is
   * never reached, since that initialiser does not fail: a raw curve outside 0
   * to 3 is kept as it is.
   */
  function MakeEventInfo(info: Option<UserInfo>, eventType: KeyboardEventOptions): (e: KeyboardEventInfo)
    ensures e.eventType == eventType
    ensures e.initialFrame == if RectEntry(info, FrameBeginKey).Some? then RectEntry(info, FrameBeginKey).value else ZeroRect
    ensures e.finalFrame == if RectEntry(info, FrameEndKey).Some? then RectEntry(info, FrameEndKey).value else ZeroRect
    ensures e.animationDuration ==
              if DoubleEntry(info, AnimationDurationKey).Some? then DoubleEntry(info, AnimationDurationKey).value else 0.0
    ensures IntEntry(info, AnimationCurveKey).None? ==> e.animationCurve == EaseInOut
    ensures IntEntry(info, AnimationCurveKey).Some? ==> e.animationCurve.rawValue == IntEntry(info, AnimationCurveKey).value
  {
    KeyboardEventInfo(
      eventType,
      RectEntry(info, FrameBeginKey).GetOr(ZeroRect),
      RectEntry(info, FrameEndKey).GetOr(ZeroRect),
      CurveFromRaw(IntEntry(info, AnimationCurveKey).GetOr(0)).GetOr(Linear),
      DoubleEntry(info, AnimationDurationKey).GetOr(0.0))
  }

  /** The payload the platform would post for the event `e`. */
  function Payload(e: KeyboardEventInfo): UserInfo {
    map[FrameBeginKey := RectValue(e.initialFrame),
        FrameEndKey := RectValue(e.finalFrame),
        AnimationDurationKey := DoubleValue(e.animationDuration),
        AnimationCurveKey := IntValue(e.animationCurve.rawValue)]
  }

  /** Decoding a well-formed payload gives back every field. */
  lemma MakeEventInfoOfPayload(e: KeyboardEventInfo)
    ensures MakeEventInfo(Some(Payload(e)), e.eventType) == e
  {
  }

  /** A raw curve outside the named four, such as 7, is kept rather than replaced by `.linear`. */
  lemma MakeEventInfoKeepsUnnamedCurve(raw: int, eventType: KeyboardEventOptions)
    ensures MakeEventInfo(Some(map[AnimationCurveKey := IntValue(raw)]), eventType).animationCurve == AnimationCurve(raw)
    ensures MakeEventInfo(Some(map[AnimationCurveKey := IntValue(raw)]), eventType).animationCurve == Linear <==> raw == 3
  {
  }

  /** A notification without a payload gives the all-default event. */
  lemma MakeEventInfoOfNothing(eventType: KeyboardEventOptions)
    ensures MakeEventInfo(None, eventType) == KeyboardEventInfo(eventType, ZeroRect, ZeroRect, EaseInOut, 0.0)
  {
  }

  /** Entries under other keys do not change the decoded event. */
  lemma MakeEventInfoIgnoresOtherKeys(info: UserInfo, key: string, v: UserInfoValue, eventType: KeyboardEventOptions)
    ensures MakeEventInfo(Some(info[OtherKey(key) := v]), eventType) == MakeEventInfo(Some(info), eventType)
  {
  }

  // ---------------------------------------------------------------------------
  // The subscriber

  /**
   * The block registered for one selected pair: it builds the event for
   * `option` and calls `onEvent` when there is one. A callback is identified by
   * the object whose handler it runs.
   */
  datatype ObserverBlock = ObserverBlock(option: KeyboardEventOptions, onEvent: Option<object>)

  /** One call of a callback: `target`'s handler runs with `event`. */
  datatype Invocation = Invocation(target: object, event: KeyboardEventInfo)

  /**
   * `onEvent?(KeyboardEventInfo(info:type:))` for each fired registration, in
   * order: a block without a handler does nothing, every other call goes to a
   * fired block's handler with the event built for that block's option.
   */
  function RunBlocks(fired: seq<Registration<ObserverBlock>>, info: Option<UserInfo>): (r: seq<Invocation>)
    ensures |r| <= |fired|
    ensures (forall k | 0 <= k < |fired| :: fired[k].block.onEvent.Some?) ==> |r| == |fired|
    ensures forall c | c in r :: exists k | 0 <= k < |fired| ::
              fired[k].block.onEvent == Some(c.target) && c.event == MakeEventInfo(info, fired[k].block.option)
  {
    if fired == [] then []
    else
      var block := fired[|fired| - 1].block;
      RunBlocks(fired[..|fired| - 1], info) +
      (if block.onEvent.Some? then [Invocation(block.onEvent.value, MakeEventInfo(info, block.option))] else [])
  }

  /** The (name, block) pairs of a list of registrations. */
  ghost function RegisteredSet(es: seq<Registration<ObserverBlock>>): set<(NotificationName, ObserverBlock)> {
    set r | r in es :: (r.name, r.block)
  }

  /** What subscribing to `pairs` with `onEvent` registers. */
  ghost function Expected(pairs: set<NotificationPair>, onEvent: Option<object>): set<(NotificationName, ObserverBlock)> {
    set p | p in pairs :: (p.notification, ObserverBlock(p.option, onEvent))
  }

  /** Running the blocks of one more fired registration of the subscriber's. */
  lemma RunOwnStep(fired: seq<Registration<ObserverBlock>>, i: nat, tokens: seq<Token>, info: Option<UserInfo>)
    requires i < |fired|
    ensures RunBlocks(FilterTokens(fired[..i + 1], tokens, true), info) ==
            RunBlocks(FilterTokens(fired[..i], tokens, true), info) +
            (if fired[i].token in tokens && fired[i].block.onEvent.Some?
             then [Invocation(fired[i].block.onEvent.value, MakeEventInfo(info, fired[i].block.option))]
             else [])
  {
    var f := FilterTokens(fired[..i], tokens, true);
    var es := fired[..i + 1];
    assert es[..|es| - 1] == fired[..i] && es[|es| - 1] == fired[i];
    if fired[i].token in tokens {
      assert FilterTokens(es, tokens, true) == f + [fired[i]];
      assert (f + [fired[i]])[..|f + [fired[i]]| - 1] == f;
    } else {
      assert FilterTokens(es, tokens, true) == f;
    }
  }

  /** Every registration of a subscription is for a selected name, with the block for that name. */
  lemma RegisteredIsSelected(own: seq<Registration<ObserverBlock>>, options: KeyboardEventOptions,
                             onEvent: Option<object>, r: Registration<ObserverBlock>)
    requires RegisteredSet(own) == Expected(CorrespondingNotifications(options), onEvent)
    requires r in own
    ensures IsSelected(options, r.name)
    ensures r.block == ObserverBlock(OptionFor(r.name).value, onEvent)
  {
    assert (r.name, r.block) in RegisteredSet(own);
    var p :| p in CorrespondingNotifications(options) && (p.notification, ObserverBlock(p.option, onEvent)) == (r.name, r.block);
    CorrespondingNotificationsExact(options, p);
  }

  /** Every selected name has a registration in a subscription. */
  lemma SelectedIsRegistered(own: seq<Registration<ObserverBlock>>, options: KeyboardEventOptions,
                             onEvent: Option<object>, name: NotificationName)
    requires RegisteredSet(own) == Expected(CorrespondingNotifications(options), onEvent)
    requires IsSelected(options, name)
    ensures exists r :: r in own && r.name == name
  {
    var p := NotificationPair(OptionFor(name).value, name);
    CorrespondingNotificationsExact(options, p);
    assert (p.notification, ObserverBlock(p.option, onEvent)) in RegisteredSet(own);
  }

  /**
   * The registrations of a subscription that a post of `name` fires: one if
   * `name` is selected and none otherwise, each with the block for `name`.
   */
  lemma MatchingOfSubscription(own: seq<Registration<ObserverBlock>>, options: KeyboardEventOptions,
                               onEvent: Option<object>, name: NotificationName)
    requires RegisteredSet(own) == Expected(CorrespondingNotifications(options), onEvent)
    requires NamesDistinct(own)
    ensures |Matching(own, name)| == if IsSelected(options, name) then 1 else 0
    ensures forall r | r in Matching(own, name) ::
              IsSelected(options, name) && r.block == ObserverBlock(OptionFor(name).value, onEvent)
  {
    var m := Matching(own, name);
    MatchingAtMostOne(own, name);
    assert |m| > 0 ==> m[0] in m;
    if IsSelected(options, name) {
      SelectedIsRegistered(own, options, onEvent, name);
      var r :| r in own && r.name == name;
      MatchingMember(own, name, r);
    }
    forall r | r in m
      ensures IsSelected(options, name) && r.block == ObserverBlock(OptionFor(name).value, onEvent)
    {
      MatchingMember(own, name, r);
      RegisteredIsSelected(own, options, onEvent, r);
    }
  }

  /**
   * Delivery to a subscription: when the subscriber's registrations are one per
   * selected pair, a post runs `onEvent` once if the name is selected and there
   * is a callback, and never otherwise; the event carries the option paired
   * with the name.
   */
  lemma DeliverToSubscription(own: seq<Registration<ObserverBlock>>, options: KeyboardEventOptions,
                              onEvent: Option<object>, name: NotificationName, info: Option<UserInfo>)
    requires RegisteredSet(own) == Expected(CorrespondingNotifications(options), onEvent)
    requires NamesDistinct(own)
    ensures |RunBlocks(Matching(own, name), info)| == if onEvent.Some? && IsSelected(options, name) then 1 else 0
    ensures forall c | c in RunBlocks(Matching(own, name), info) ::
              onEvent == Some(c.target) && OptionFor(name).Some? && c.event == MakeEventInfo(info, OptionFor(name).value)
  {
    var m := Matching(own, name);
    MatchingOfSubscription(own, options, onEvent, name);
    if |m| == 1 {
      assert m[0] in m;
      assert m[..0] == [];
    }
  }

  /** No two pairs of `pairs` share a notification name. */
  ghost predicate OnePerName(pairs: set<NotificationPair>) {
    forall p, q | p in pairs && q in pairs && p.notification == q.notification :: p == q
  }

  /** The pairs any option set selects carry distinct names. */
  lemma CorrespondingOnePerName(options: KeyboardEventOptions)
    ensures OnePerName(CorrespondingNotifications(options))
  {
    forall p, q | p in CorrespondingNotifications(options) && q in CorrespondingNotifications(options) &&
                  p.notification == q.notification
      ensures p == q
    {
      CorrespondingNotificationsExact(options, p);
      CorrespondingNotificationsExact(options, q);
    }
  }

  /**
   * The registrations made so far stand for exactly the pairs in `done`: one
   * each, with the blocks the pairs call for.
   */
  ghost predicate RegisteredFor(added: seq<Registration<ObserverBlock>>, done: set<NotificationPair>, onEvent: Option<object>) {
    (forall r | r in added :: NotificationPair(r.block.option, r.name) in done) &&
    RegisteredSet(added) == Expected(done, onEvent)
  }

  /**
   * One step of subscribing: registering the block for a pair not yet
   * registered adds exactly that pair, and keeps the names distinct when
   * the pairs carry distinct names.
   */
  lemma RegisterStep(pairs: set<NotificationPair>, remaining: set<NotificationPair>,
                     added: seq<Registration<ObserverBlock>>, pair: NotificationPair,
                     r: Registration<ObserverBlock>, onEvent: Option<object>)
    requires remaining <= pairs && pair in remaining
    requires r.name == pair.notification && r.block == ObserverBlock(pair.option, onEvent)
    requires RegisteredFor(added, pairs - remaining, onEvent)
    ensures RegisteredFor(added + [r], pairs - (remaining - {pair}), onEvent)
    ensures OnePerName(pairs) && NamesDistinct(added) ==> NamesDistinct(added + [r])
  {
    if OnePerName(pairs) {
      forall i | 0 <= i < |added|
        ensures added[i].name != pair.notification
      {
        assert added[i] in added;
      }
    }
    assert RegisteredSet(added + [r]) == RegisteredSet(added) + {(r.name, r.block)};
    assert pairs - (remaining - {pair}) == (pairs - remaining) + {pair};
  }

  /**
   * `tokens` are the tokens of `added`, increasing, and all in `[lo, hi)`.
   */
  ghost predicate TokensOf(added: seq<Registration<ObserverBlock>>, tokens: seq<Token>, lo: Token, hi: Token) {
    |added| == |tokens| && Increasing(tokens) &&
    forall i | 0 <= i < |added| :: added[i].token == tokens[i] && lo <= tokens[i] < hi
  }

  /** Appending a registration under the next token `hi` keeps `TokensOf`, now up to `hi + 1`. */
  lemma TokensOfAppend(added: seq<Registration<ObserverBlock>>, tokens: seq<Token>, lo: Token, hi: Token,
                       r: Registration<ObserverBlock>)
    requires TokensOf(added, tokens, lo, hi) && r.token == hi && lo <= hi
    ensures TokensOf(added + [r], tokens + [hi], lo, hi + 1)
  {
    IncreasingAppend(tokens, hi);
  }

  /**
   * After appending registrations under fresh tokens to a table whose tokens
   * are all older, selecting the fresh tokens gives the appended part and
   * leaving them out gives the old table.
   */
  lemma RegisteredAfterBase(base: seq<Registration<ObserverBlock>>, added: seq<Registration<ObserverBlock>>,
                            tokens: seq<Token>, firstToken: Token)
    requires forall i | 0 <= i < |base| :: base[i].token < firstToken
    requires |added| == |tokens|
    requires forall i | 0 <= i < |added| :: added[i].token == tokens[i] && tokens[i] >= firstToken
    ensures FilterTokens(base + added, tokens, true) == added
    ensures FilterTokens(base + added, tokens, false) == base
  {
    forall i | 0 <= i < |base|
      ensures (base[i].token in tokens) == false
    {
      forall j | 0 <= j < |tokens|
        ensures tokens[j] != base[i].token
      {
        assert added[j].token == tokens[j];
      }
    }
    forall i | 0 <= i < |added|
      ensures (added[i].token in tokens) == true
    {
      assert tokens[i] in tokens;
    }
    FilterTokensAppend(base, added, tokens, true);
    FilterTokensAppend(base, added, tokens, false);
    FilterTokensNone(base, tokens, true);
    FilterTokensAll(base, tokens, false);
    FilterTokensAll(added, tokens, true);
    FilterTokensNone(added, tokens, false);
  }

  /**
   * The subscriber's side of the table: its tokens were handed out (below
   * `nextToken`) and are stored once each, and they select one registration
   * per pair `options` selects, with distinct names and the blocks the
   * subscription calls for.
   */
  ghost predicate Consistent(entries: seq<Registration<ObserverBlock>>, nextToken: Token, observers: seq<Token>,
                             options: KeyboardEventOptions, onEvent: Option<object>)
  {
    Increasing(observers) && (forall t | t in observers :: t < nextToken) &&
    |observers| == |FilterTokens(entries, observers, true)| == |CorrespondingNotifications(options)| &&
    NamesDistinct(FilterTokens(entries, observers, true)) &&
    RegisteredSet(FilterTokens(entries, observers, true)) == Expected(CorrespondingNotifications(options), onEvent)
  }

  /**
   * Appending the registrations of a new subscription under fresh, increasing
   * tokens to a table of older tokens gives a consistent subscriber.
   */
  lemma SubscribedConsistent(base: seq<Registration<ObserverBlock>>, added: seq<Registration<ObserverBlock>>,
                             tokens: seq<Token>, firstToken: Token, nextToken: Token,
                             options: KeyboardEventOptions, onEvent: Option<object>)
    requires forall i | 0 <= i < |base| :: base[i].token < firstToken
    requires |added| == |tokens| == |CorrespondingNotifications(options)|
    requires forall i | 0 <= i < |added| :: added[i].token == tokens[i] && firstToken <= tokens[i] < nextToken
    requires Increasing(tokens) && NamesDistinct(added)
    requires RegisteredSet(added) == Expected(CorrespondingNotifications(options), onEvent)
    ensures FilterTokens(base + added, tokens, true) == added
    ensures FilterTokens(base + added, tokens, false) == base
    ensures Consistent(base + added, nextToken, tokens, options, onEvent)
  {
    RegisteredAfterBase(base, added, tokens, firstToken);
    forall t | t in tokens
      ensures t < nextToken
    {
      var j :| 0 <= j < |tokens| && tokens[j] == t;
    }
  }

  /** A subscriber without tokens owns nothing, and that is what the empty selection calls for. */
  lemma NothingRegistered(entries: seq<Registration<ObserverBlock>>, nextToken: Token)
    ensures FilterTokens(entries, [], true) == [] && FilterTokens(entries, [], false) == entries
    ensures RegisteredSet([]) == {} == Expected(CorrespondingNotifications(NoOptions), None)
    ensures Consistent(entries, nextToken, [], NoOptions, None)
  {
    FilterTokensNone(entries, [], true);
    FilterTokensAll(entries, [], false);
    CorrespondingNotificationsOfNothing();
  }

  /** `observers.forEach { notificationCenter.removeObserver($0) }` */
  method RemoveObservers(center: NotificationCenter<ObserverBlock>, tokens: seq<Token>)
    requires center.Valid()
    modifies center
    ensures center.Valid() && center.nextToken == old(center.nextToken)
    ensures center.entries == FilterTokens(old(center.entries), tokens, false)
    ensures forall r | r in center.entries :: r.token !in tokens
  {
    var i := 0;
    FilterTokensAll(center.entries, [], false);
    assert tokens[..0] == [];
    while i < |tokens|
      invariant 0 <= i <= |tokens|
      invariant center.Valid() && center.nextToken == old(center.nextToken)
      invariant center.entries == FilterTokens(old(center.entries), tokens[..i], false)
    {
      assert tokens[..i + 1] == tokens[..i] + [tokens[i]];
      RemoveOneMore(old(center.entries), tokens[..i], tokens[i]);
      center.RemoveObserver(tokens[i]);
      i := i + 1;
    }
    assert tokens[..i] == tokens;
    forall r | r in center.entries
      ensures r.token !in tokens
    {
      FilterTokensMember(old(center.entries), tokens, false, r);
    }
  }

  /**
   * `notifications.map { pair in addObserver(...) }`: registers one block per
   * pair, under fresh tokens, and returns the tokens.
   */
  method AddObservers(center: NotificationCenter<ObserverBlock>, notifications: set<NotificationPair>, onEvent: Option<object>)
    returns (tokens: seq<Token>, ghost added: seq<Registration<ObserverBlock>>)
    requires center.Valid()
    modifies center
    ensures center.Valid() && center.entries == old(center.entries) + added
    ensures center.nextToken >= old(center.nextToken)
    ensures |added| == |tokens| == |notifications|
    ensures forall i | 0 <= i < |added| :: added[i].token == tokens[i] && old(center.nextToken) <= tokens[i] < center.nextToken
    ensures Increasing(tokens)
    ensures OnePerName(notifications) ==> NamesDistinct(added)
    ensures RegisteredSet(added) == Expected(notifications, onEvent)
  {
    added, tokens := [], [];
    var remaining := notifications;
    while remaining != {}
      invariant remaining <= notifications
      invariant center.Valid() && center.nextToken >= old(center.nextToken)
      invariant center.entries == old(center.entries) + added
      invariant |tokens| + |remaining| == |notifications|
      invariant TokensOf(added, tokens, old(center.nextToken), center.nextToken)
      invariant RegisteredFor(added, notifications - remaining, onEvent)
      invariant OnePerName(notifications) ==> NamesDistinct(added)
      decreases remaining
    {
      var pair :| pair in remaining;
      var block := ObserverBlock(pair.option, onEvent);
      var token := center.AddObserver(pair.notification, block);
      RegisterStep(notifications, remaining, added, pair, Registration(token, pair.notification, block), onEvent);
      TokensOfAppend(added, tokens, old(center.nextToken), token, Registration(token, pair.notification, block));
      added := added + [Registration(token, pair.notification, block)];
      tokens := tokens + [token];
      remaining := remaining - {pair};
    }
    assert notifications - remaining == notifications;
  }

  /**
   * The centre running the fired registrations in order; only the blocks of
   * the registrations under `tokens` are followed.
   */
  method RunOwnBlocks(fired: seq<Registration<ObserverBlock>>, tokens: seq<Token>, info: Option<UserInfo>)
    returns (calls: seq<Invocation>)
    ensures calls == RunBlocks(FilterTokens(fired, tokens, true), info)
  {
    calls := [];
    var i := 0;
    while i < |fired|
      invariant 0 <= i <= |fired|
      invariant calls == RunBlocks(FilterTokens(fired[..i], tokens, true), info)
    {
      var r := fired[i];
      RunOwnStep(fired, i, tokens, info);
      if r.token in tokens && r.block.onEvent.Some? {
        calls := calls + [Invocation(r.block.onEvent.value, MakeEventInfo(info, r.block.option))];
      }
      i := i + 1;
    }
    assert fired[..i] == fired;
  }

  class KeyboardSubscriber {
    const notificationCenter: NotificationCenter<ObserverBlock>
    /** The tokens of this subscriber's registrations. */
    var observers: seq<Token>
    /** The options and callback of the current subscription (no options when stopped). */
    ghost var options: KeyboardEventOptions
    ghost var onEvent: Option<object>

    /** This subscriber's registrations in the centre. */
    ghost function Own(): seq<Registration<ObserverBlock>>
      reads this, notificationCenter
    {
      FilterTokens(notificationCenter.entries, observers, true)
    }

    /** Everybody else's registrations in the centre. */
    ghost function Others(): seq<Registration<ObserverBlock>>
      reads this, notificationCenter
    {
      FilterTokens(notificationCenter.entries, observers, false)
    }

    /** The (name, block) pairs this subscriber has registered. */
    ghost function Registered(): set<(NotificationName, ObserverBlock)>
      reads this, notificationCenter
    {
      RegisteredSet(Own())
    }

    /**
     * The registrations are one per selected pair: one token each, distinct
     * names, and exactly the blocks the subscription calls for. The tokens
     * were handed out by the centre, and none is stored twice.
     */
    ghost predicate Valid()
      reads this, notificationCenter
    {
      notificationCenter.Valid() &&
      Consistent(notificationCenter.entries, notificationCenter.nextToken, observers, options, onEvent)
    }

    /** `init(notificationCenter:)` */
    constructor (center: NotificationCenter<ObserverBlock>)
      requires center.Valid()
      ensures Valid()
      ensures notificationCenter == center && observers == [] && options == NoOptions && onEvent == None
      ensures Others() == center.entries
    {
      notificationCenter := center;
      observers := [];
      options := NoOptions;
      onEvent := None;
      new;
      NothingRegistered(center.entries, center.nextToken);
    }

    /**
     * `stopReceivingKeyboardEvents()`: removes every stored observer from the
     * centre and empties the list; nobody else's registration is touched.
     */
    method StopReceivingKeyboardEvents()
      requires notificationCenter.Valid()
      modifies this, notificationCenter
      ensures Valid()
      ensures observers == [] && options == NoOptions && onEvent == None
      ensures notificationCenter.entries == old(Others()) == Others()
      ensures notificationCenter.nextToken == old(notificationCenter.nextToken)
      ensures Own() == [] && Registered() == {}
      ensures forall r | r in notificationCenter.entries :: r.token !in old(observers)
    {
      var obs := observers;
      RemoveObservers(notificationCenter, obs);
      NothingRegistered(notificationCenter.entries, notificationCenter.nextToken);
      observers := [];
      options := NoOptions;
      onEvent := None;
    }

    /**
     * `subscribeToKeyboardEvents(options:onEvent:)`: tears the old
     * registrations down, then registers one block per selected pair under
     * fresh tokens.
     */
    method SubscribeToKeyboardEvents(options: KeyboardEventOptions, onEvent: Option<object>)
      requires notificationCenter.Valid()
      modifies this, notificationCenter
      ensures Valid()
      ensures this.options == options && this.onEvent == onEvent
      ensures |observers| == |CorrespondingNotifications(options)|
      ensures Registered() == Expected(CorrespondingNotifications(options), onEvent)
      ensures Others() == old(Others())
      ensures notificationCenter.entries == old(Others()) + Own()
      ensures notificationCenter.nextToken >= old(notificationCenter.nextToken)
      ensures forall t | t in observers :: t >= old(notificationCenter.nextToken)
    {
      StopReceivingKeyboardEvents();
      Register(options, onEvent);
    }

    /**
     * The registering half of `subscribeToKeyboardEvents`: with nothing of its
     * own in the centre, the subscriber registers one block per selected pair
     * and stores the tokens.
     */
    method Register(options: KeyboardEventOptions, onEvent: Option<object>)
      requires notificationCenter.Valid() && observers == []
      modifies this, notificationCenter
      ensures Valid()
      ensures this.options == options && this.onEvent == onEvent
      ensures |observers| == |CorrespondingNotifications(options)|
      ensures Registered() == Expected(CorrespondingNotifications(options), onEvent)
      ensures Others() == old(notificationCenter.entries)
      ensures notificationCenter.entries == old(notificationCenter.entries) + Own()
      ensures notificationCenter.nextToken >= old(notificationCenter.nextToken)
      ensures forall t | t in observers :: t >= old(notificationCenter.nextToken)
    {
      ghost var base := notificationCenter.entries;
      var notifications := CorrespondingNotifications(options);
      CorrespondingOnePerName(options);
      var tokens, added := AddObservers(notificationCenter, notifications, onEvent);
      SubscribedConsistent(base, added, tokens, old(notificationCenter.nextToken), notificationCenter.nextToken,
                           options, onEvent);
      observers := tokens;
      this.options := options;
      this.onEvent := onEvent;
      forall t | t in observers
        ensures t >= old(notificationCenter.nextToken)
      {
        var j :| 0 <= j < |tokens| && tokens[j] == t;
      }
    }

    /** `deinit`: the same teardown, so no registration of this subscriber outlives it. */
    method Deinit()
      requires notificationCenter.Valid()
      modifies this, notificationCenter
      ensures observers == [] && notificationCenter.entries == old(Others())
      ensures forall r | r in notificationCenter.entries :: r.token !in old(observers)
    {
      StopReceivingKeyboardEvents();
    }

    /**
     * Posting `name` with payload `info`: the centre runs the blocks registered
     * for `name`; the result is the callback calls made by this subscriber's
     * blocks, in order.
     */
    method Deliver(name: NotificationName, info: Option<UserInfo>) returns (calls: seq<Invocation>)
      requires Valid()
      ensures |calls| == if onEvent.Some? && IsSelected(options, name) then 1 else 0
      ensures forall c | c in calls ::
                onEvent == Some(c.target) && OptionFor(name).Some? && c.event == MakeEventInfo(info, OptionFor(name).value)
    {
      var fired := notificationCenter.Post(name);
      calls := RunOwnBlocks(fired, observers, info);
      MatchingFilterTokens(notificationCenter.entries, observers, name);
      DeliverToSubscription(Own(), options, onEvent, name, info);
    }
  }

  /** Subscribing twice in a row leaves the same registrations as subscribing once. */
  method SubscribeTwice(s: KeyboardSubscriber, options: KeyboardEventOptions, onEvent: Option<object>)
    requires s.Valid()
    modifies s, s.notificationCenter
    ensures s.Valid()
    ensures s.Registered() == Expected(CorrespondingNotifications(options), onEvent)
    ensures |s.observers| == |CorrespondingNotifications(options)|
    ensures s.Others() == old(s.Others())
  {
    s.SubscribeToKeyboardEvents(options, onEvent);
    ghost var once, othersOnce := s.Registered(), s.Others();
    s.SubscribeToKeyboardEvents(options, onEvent);
    assert s.Registered() == once && s.Others() == othersOnce;
  }

  /** Stopping twice in a row is the same as stopping once. */
  method StopTwice(s: KeyboardSubscriber)
    requires s.Valid()
    modifies s, s.notificationCenter
    ensures s.Valid() && s.observers == []
    ensures s.notificationCenter.entries == old(s.Others())
  {
    s.StopReceivingKeyboardEvents();
    ghost var once := s.notificationCenter.entries;
    s.StopReceivingKeyboardEvents();
    FilterTokensAll(once, [], false);
    assert s.notificationCenter.entries == once;
  }

  /**
   * Another subscriber's side of the table survives a change that removes
   * tokens it does not hold and appends registrations under newer tokens.
   */
  lemma ConsistentBesideChange(before: seq<Registration<ObserverBlock>>, n: Token, removed: seq<Token>,
                               after: seq<Registration<ObserverBlock>>, n': Token, changedTokens: seq<Token>,
                               observers: seq<Token>, options: KeyboardEventOptions, onEvent: Option<object>)
    requires Consistent(before, n, observers, options, onEvent)
    requires after == FilterTokens(before, removed, false) + FilterTokens(after, changedTokens, true)
    requires forall t | t in changedTokens :: t >= n
    requires forall t | t in observers :: t !in removed
    requires n' >= n
    ensures FilterTokens(after, observers, true) == FilterTokens(before, observers, true)
    ensures Consistent(after, n', observers, options, onEvent)
  {
    var added := FilterTokens(after, changedTokens, true);
    forall i | 0 <= i < |added|
      ensures added[i].token >= n
    {
      FilterTokensMember(after, changedTokens, true, added[i]);
    }
    OthersUnaffected(before, added, removed, observers, n);
  }

  /** `a` and `b` hold no token in common. */
  ghost predicate Separate(a: KeyboardSubscriber, b: KeyboardSubscriber)
    reads a, b
  {
    forall t | t in a.observers :: t !in b.observers
  }

  /**
   * Two subscribers on one centre, such as two avoiding views on the default
   * centre: re-subscribing one leaves the other's registrations and invariant
   * as they were, and their tokens stay apart.
   */
  method SubscribeBesideAnother(a: KeyboardSubscriber, b: KeyboardSubscriber,
                                options: KeyboardEventOptions, onEvent: Option<object>)
    requires a.Valid() && b.Valid() && a != b && a.notificationCenter == b.notificationCenter
    requires Separate(a, b)
    modifies a, a.notificationCenter
    ensures a.Valid() && a.Registered() == Expected(CorrespondingNotifications(options), onEvent)
    ensures b.Valid() && b.Own() == old(b.Own())
    ensures Separate(a, b)
  {
    ghost var n := a.notificationCenter.nextToken;
    ghost var removed := a.observers;
    ghost var before := a.notificationCenter.entries;
    a.SubscribeToKeyboardEvents(options, onEvent);
    ConsistentBesideChange(before, n, removed, a.notificationCenter.entries, a.notificationCenter.nextToken, a.observers,
                           b.observers, b.options, b.onEvent);
  }

  /** Two subscribers on one centre: stopping one leaves the other as it was. */
  method StopBesideAnother(a: KeyboardSubscriber, b: KeyboardSubscriber)
    requires a.Valid() && b.Valid() && a != b && a.notificationCenter == b.notificationCenter
    requires Separate(a, b)
    modifies a, a.notificationCenter
    ensures a.Valid() && a.observers == []
    ensures b.Valid() && b.Own() == old(b.Own())
    ensures Separate(a, b)
  {
    ghost var n := a.notificationCenter.nextToken;
    ghost var removed := a.observers;
    ghost var before := a.notificationCenter.entries;
    a.StopReceivingKeyboardEvents();
    ConsistentBesideChange(before, n, removed, a.notificationCenter.entries, a.notificationCenter.nextToken, [],
                           b.observers, b.options, b.onEvent);
  }
}
