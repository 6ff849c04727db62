/**
 * `KeyboardAvoidingContainer`: a container view that owns a lazily created
 * avoider and subscribes it while the view is in a window.
 */
module AvoidingViews {
  import opened Wrappers
  import opened Notifications
  import opened KeyboardSubscription
  import opened Containers
  import opened Avoidance

  /** A window a view can be moved to; only its presence matters. */
  datatype Window = Window(id: nat)

  /**
   * One of the five container views together with its `lazy var avoider`.
   * `center` stands for the default notification centre the avoider's
   * subscriber is created with.
   */
  class KeyboardAvoidingContainer {
    const view: Container
    const center: NotificationCenter<ObserverBlock>
    /** The stored value of `lazy var avoider`: `null` until first read. */
    var storedAvoider: KeyboardAvoider?

    ghost function AvoiderObjects(): set<object>
      reads this
    {
      if storedAvoider == null then {} else {storedAvoider, storedAvoider.keyboardSubscriber}
    }

    /** The tokens the view's avoider holds in the centre; none before the avoider exists. */
    ghost function OwnTokens(): seq<Token>
      reads this, AvoiderObjects()
    {
      if storedAvoider == null then [] else storedAvoider.keyboardSubscriber.observers
    }

    /** An avoider, once created, manages this view through the default centre. */
    ghost predicate Valid()
      reads this, view, center, AvoiderObjects()
    {
      center.Valid() &&
      (storedAvoider != null ==>
         storedAvoider.container == view &&
         storedAvoider.keyboardSubscriber.notificationCenter == center &&
         storedAvoider.Valid())
    }

    constructor (view: Container, center: NotificationCenter<ObserverBlock>)
      requires center.Valid()
      ensures Valid()
      ensures this.view == view && this.center == center && storedAvoider == null
    {
      this.view := view;
      this.center := center;
      storedAvoider := null;
    }

    /**
     * `setupAvoider()`: a new avoider for this view with a new subscriber on
     * the default centre; nothing is subscribed and nothing is adjusted yet.
     */
    method SetupAvoider() returns (a: KeyboardAvoider)
      requires Valid()
      ensures fresh(a) && fresh(a.keyboardSubscriber)
      ensures a.Valid() && a.container == view && a.keyboardSubscriber.notificationCenter == center
      ensures a.overlapHeight == 0.0 && a.baseInsets == view.Insets()
      ensures a.keyboardSubscriber.observers == [] && a.keyboardSubscriber.Others() == center.entries
    {
      var subscriber := new KeyboardSubscriber(center);
      a := new KeyboardAvoider(subscriber, view);
    }

    /** Reading `avoider`: created by `setupAvoider()` on the first read, the same object afterwards. */
    method Avoider() returns (a: KeyboardAvoider)
      requires Valid()
      modifies this
      ensures Valid() && storedAvoider == a
      ensures old(storedAvoider) != null ==> a == old(storedAvoider)
      ensures old(storedAvoider) == null ==>
                fresh(a) && fresh(a.keyboardSubscriber) && a.overlapHeight == 0.0 &&
                a.keyboardSubscriber.observers == [] && a.keyboardSubscriber.Others() == center.entries
    {
      if storedAvoider == null {
        storedAvoider := SetupAvoider();
      }
      a := storedAvoider;
    }

    /**
     * `onMove(to:)`, which `willMove(toWindow:)` calls: moving into a window
     * subscribes the avoider to frame changes, moving out of one unsubscribes
     * it. The view's insets and every other registration stay as they are.
     */
    method OnMove(window: Option<Window>)
      requires Valid()
      modifies this, center, AvoiderObjects()
      ensures Valid() && storedAvoider != null
      ensures old(storedAvoider) != null ==> storedAvoider == old(storedAvoider)
      ensures old(storedAvoider) == null ==> fresh(storedAvoider) && fresh(storedAvoider.keyboardSubscriber)
      ensures view.Insets() == old(view.Insets())
      ensures old(storedAvoider) != null ==>
                storedAvoider.overlapHeight == old(storedAvoider.overlapHeight) &&
                storedAvoider.baseInsets == old(storedAvoider.baseInsets)
      ensures old(storedAvoider) == null ==> storedAvoider.overlapHeight == 0.0 && storedAvoider.baseInsets == view.Insets()
      ensures storedAvoider.IsActive() <==> window.Some?
      ensures window.Some? ==>
                storedAvoider.keyboardSubscriber.options == KeyboardWillChangeFrame &&
                storedAvoider.keyboardSubscriber.onEvent == Some(storedAvoider) &&
                |storedAvoider.keyboardSubscriber.observers| == 1
      ensures old(storedAvoider) != null ==>
                storedAvoider.keyboardSubscriber.Others() == old(storedAvoider.keyboardSubscriber.Others())
      ensures old(storedAvoider) == null ==> storedAvoider.keyboardSubscriber.Others() == old(center.entries)
      ensures center.entries == FilterTokens(old(center.entries), old(OwnTokens()), false) + storedAvoider.keyboardSubscriber.Own()
      ensures center.nextToken >= old(center.nextToken)
      ensures forall t | t in OwnTokens() :: t >= old(center.nextToken)
    {
      var a := Avoider();
      if window.Some? {
        a.StartSubscribing();
      } else {
        a.StopSubscribing();
      }
    }
  }

  /**
   * Moving a view into a window and out again leaves it unsubscribed, with
   * its insets as they were and its avoider's adjustment still in place.
   */
  method AttachThenDetach(c: KeyboardAvoidingContainer, w: Window)
    requires c.Valid()
    modifies c, c.center, c.AvoiderObjects()
    ensures c.Valid() && c.storedAvoider != null && !c.storedAvoider.IsActive()
    ensures c.view.Insets() == old(c.view.Insets())
    ensures old(c.storedAvoider) != null ==>
              c.storedAvoider == old(c.storedAvoider) &&
              c.storedAvoider.overlapHeight == old(c.storedAvoider.overlapHeight) &&
              c.storedAvoider.baseInsets == old(c.storedAvoider.baseInsets)
    ensures old(c.storedAvoider) == null ==>
              c.storedAvoider.overlapHeight == 0.0 && c.storedAvoider.baseInsets == c.view.Insets()
  {
    c.OnMove(Some(w));
    c.OnMove(None);
  }

  /**
   * Two views on one centre whose avoiders are separate objects holding
   * separate tokens.
   */
  ghost predicate Independent(c1: KeyboardAvoidingContainer, c2: KeyboardAvoidingContainer)
    reads c1, c2, c1.AvoiderObjects(), c2.AvoiderObjects()
  {
    c1 != c2 && c1.center == c2.center &&
    c2 !in c1.AvoiderObjects() && c1 !in c2.AvoiderObjects() &&
    c2.view !in c1.AvoiderObjects() && c1.view !in c2.AvoiderObjects() &&
    (c2.storedAvoider != null ==>
       c2.storedAvoider !in c1.AvoiderObjects() && c2.storedAvoider.keyboardSubscriber !in c1.AvoiderObjects()) &&
    (c1.storedAvoider != null ==>
       c1.storedAvoider !in c2.AvoiderObjects() && c1.storedAvoider.keyboardSubscriber !in c2.AvoiderObjects()) &&
    forall t | t in c1.OwnTokens() :: t !in c2.OwnTokens()
  }

  /**
   * A view whose own objects are untouched stays valid while the centre's
   * table changes, as long as its avoider's registrations still stand.
   */
  twostate lemma UntouchedViewValid(c: KeyboardAvoidingContainer)
    requires old(c.Valid())
    requires unchanged(c, c.view)
    requires c.storedAvoider != null ==> unchanged(c.storedAvoider, c.storedAvoider.keyboardSubscriber)
    requires c.center.Valid()
    requires c.storedAvoider != null ==>
               Consistent(c.center.entries, c.center.nextToken, c.storedAvoider.keyboardSubscriber.observers,
                          c.storedAvoider.keyboardSubscriber.options, c.storedAvoider.keyboardSubscriber.onEvent)
    ensures c.Valid() && c.AvoiderObjects() == old(c.AvoiderObjects()) && c.OwnTokens() == old(c.OwnTokens())
  {
  }

  /**
   * Moving one view into or out of a window leaves another view on the same
   * centre as it was: still valid, with the same registrations and insets.
   */
  method MoveBesideAnother(c1: KeyboardAvoidingContainer, c2: KeyboardAvoidingContainer, window: Option<Window>)
    requires c1.Valid() && c2.Valid() && Independent(c1, c2)
    modifies c1, c1.center, c1.AvoiderObjects()
    ensures c1.Valid() && c2.Valid()
    ensures forall t | t in c1.OwnTokens() :: t !in c2.OwnTokens()
    ensures c1.storedAvoider != null && (c1.storedAvoider.IsActive() <==> window.Some?)
    ensures c2.storedAvoider == old(c2.storedAvoider)
    ensures c2.storedAvoider != null ==> c2.storedAvoider.keyboardSubscriber.Own() == old(c2.storedAvoider.keyboardSubscriber.Own())
    ensures c2.view.Insets() == old(c2.view.Insets())
  {
    ghost var n := c1.center.nextToken;
    ghost var removed := c1.OwnTokens();
    ghost var before := c1.center.entries;
    c1.OnMove(window);
    assert unchanged(c2, c2.view);
    assert c2.storedAvoider != null ==> unchanged(c2.storedAvoider, c2.storedAvoider.keyboardSubscriber);
    if c2.storedAvoider != null {
      ghost var s2 := c2.storedAvoider.keyboardSubscriber;
      ConsistentBesideChange(before, n, removed, c1.center.entries, c1.center.nextToken, c1.OwnTokens(),
                             s2.observers, s2.options, s2.onEvent);
    }
    UntouchedViewValid(c2);
  }
}
