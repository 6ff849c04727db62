# KeyboardAvoidance in Dafny

This is a verified model of the core of KeyboardAvoidance, a small UIKit library. The library keeps a container view's content clear of the on-screen keyboard. The model has three parts:

- **Keyboard event subscription** (`keyboard_subscriber.dfy`, module `KeyboardSubscription`).
  - The `KeyboardEventOptions` option set.
  - The pairing of its six options with the six keyboard notifications.
  - The defaulting decoder that turns a notification payload into a `KeyboardEventInfo`.
  - `KeyboardSubscriber`, which keeps its observer tokens in a notification centre. Re-subscribing tears the old registrations down, and stopping empties the list.
  - The notification centre is an abstract registration table (`notification_center.dfy`, module `Notifications`). It has add, remove and post operations.
- **The inset avoider** (`keyboard_avoider.dfy`, module `Avoidance`).
  - The `overlapHeight` property observers keep `insets.bottom == base + overlapHeight`, where the base is the container's insets when the avoider is created and only the avoider writes the insets afterwards (see "## Left out").
  - The keyboard handler sets `overlapHeight` to the height of the keyboard's overlap with the container's bounds.
  - Start and stop switch the subscription on and off.
  - The animation curve is converted to animation options.
  - The rectangle arithmetic is in `geometry.dfy` (module `Geometry`).
- **The container adapters** (`containers.dfy`, module `Containers`; `avoiding_views.dfy`, module `AvoidingViews`).
  - The `insets` accessors of the five view classes.
  - The lazily created avoider.
  - The window rule: entering a window subscribes, leaving one unsubscribes.

Geometry uses `real`, so the additive inset invariant holds exactly.

The event decoder (`KeyboardAvoidance/KeyboardSubscriber.swift:52-59`) puts a default in place of each missing or malformed field. A missing curve, or one that is not an integer, becomes raw value 0, which is `.easeInOut`. `UIViewAnimationCurve` is imported from C, so `UIViewAnimationCurve(rawValue:)` never fails: it keeps any raw value, and the `?? .linear` after it is never used. A raw curve of 7, the value the comment at `KeyboardAvoidance/KeyboardSubscriber.swift:57` reports, stays 7, and the animation options built from it are 7 << 16 = 458752.

Three sample geometries are proved as plain scenarios. A keyboard entirely below the container overlaps it by 0 (`Geometry.KeyboardBelowContainer`). A keyboard over the container's lower 300 points overlaps it by 300 (`Geometry.KeyboardOverLowerPart`). A keyboard that only touches the container's right edge still gives a height of 300, because rectangles that share an edge intersect in a zero-width rectangle (`Geometry.KeyboardBesideContainer`).

Several views can share one notification centre. Every subscriber holds its own tokens. Subscribing, stopping, or moving one view into or out of a window leaves every other subscriber's registrations and validity as they were.

## Model

| member | source | states |
|---|---|---|
| KeyboardSubscription.OptionsAreDistinctBits | KeyboardAvoidance/KeyboardSubscriber.swift:18-23 | each declared option is a single bit among bits 0-5; two different options share no bit; one contains another only if they are equal |
| KeyboardSubscription.AllOptionsCoverLowSixBits | KeyboardAvoidance/KeyboardSubscriber.swift:18-23 | the union of the six options is exactly bits 0-5 (0x3F) |
| KeyboardSubscription.OptionFor | KeyboardAvoidance/KeyboardSubscriber.swift:32-39 | each of the six keyboard notification names is paired with exactly one declared option, which the dictionary maps back to that name; any other name has no option |
| KeyboardSubscription.CorrespondingNotifications | KeyboardAvoidance/KeyboardSubscriber.swift:31-42 | every returned pair is a dictionary pair whose name maps back to its option, and the set contains that option (the converse is `CorrespondingNotificationsExact`) |
| KeyboardSubscription.CorrespondingNotificationsExact | KeyboardAvoidance/KeyboardSubscriber.swift:31-42 | a pair is in the result iff it is one of the dictionary's pairs and the set contains its option |
| KeyboardSubscription.CorrespondingOnePerName | KeyboardAvoidance/KeyboardSubscriber.swift:31-42 | no two selected pairs share a notification name, so one observer is registered per name |
| KeyboardSubscription.CorrespondingNotificationsByName | KeyboardAvoidance/KeyboardSubscriber.swift:31-42 | a notification name appears in the result iff the set selects it, and only together with its paired option |
| KeyboardSubscription.CorrespondingNotificationsOfNothing | KeyboardAvoidance/KeyboardSubscriber.swift:31-42 | the empty option set gives no pairs |
| KeyboardSubscription.CorrespondingNotificationsOfOne | KeyboardAvoidance/KeyboardSubscriber.swift:31-42 | a single declared option gives exactly its own pair |
| KeyboardSubscription.CorrespondingNotificationsUnion | KeyboardAvoidance/KeyboardSubscriber.swift:31-42 | the pairs of a union are the union of the pairs |
| KeyboardSubscription.CurveFromRaw | KeyboardAvoidance/KeyboardSubscriber.swift:58 | `UIViewAnimationCurve(rawValue:)` never fails: it gives the curve with exactly the raw value it was given, which is one of the four named curves iff the raw value is 0-3 |
| KeyboardSubscription.MakeEventInfo | KeyboardAvoidance/KeyboardSubscriber.swift:52-59 | the event type is copied; each frame is the payload's rectangle, or the zero rect when it is missing or has another type; the duration is the payload's double, or 0; a missing or non-integer curve gives raw value 0 (easeInOut), and an integer curve keeps its raw value, so the `.linear` fallback is never taken |
| KeyboardSubscription.MakeEventInfoKeepsUnnamedCurve | KeyboardAvoidance/KeyboardSubscriber.swift:57-58 | an integer curve outside 0-3, such as 7, is kept as it is; the event's curve is linear only when the raw value is 3 |
| KeyboardSubscription.MakeEventInfoOfPayload | KeyboardAvoidance/KeyboardSubscriber.swift:52-59 | decoding a well-formed payload gives back every field of the event |
| KeyboardSubscription.MakeEventInfoOfNothing | KeyboardAvoidance/KeyboardSubscriber.swift:52-59 | a nil payload gives zero frames, duration 0 and easeInOut |
| KeyboardSubscription.MakeEventInfoIgnoresOtherKeys | KeyboardAvoidance/KeyboardSubscriber.swift:52-59 | entries under keys other than the four keyboard keys do not affect the event |
| Notifications.NotificationCenter.AddObserver | KeyboardAvoidance/KeyboardSubscriber.swift:92-95 | a registration for the name and block is appended under a token no earlier registration has |
| Notifications.NotificationCenter.RemoveObserver | KeyboardAvoidance/KeyboardSubscriber.swift:103 | exactly the registrations with that token are dropped, and the order of the rest is kept |
| Notifications.NotificationCenter.Post | KeyboardAvoidance/KeyboardSubscriber.swift:92-95 | a post runs exactly the registrations for its name, in registration order |
| Notifications.MatchingAtMostOne | KeyboardAvoidance/KeyboardSubscriber.swift:91-96 | when registered names are distinct, a post fires at most one of them |
| KeyboardSubscription.RemoveObservers | KeyboardAvoidance/KeyboardSubscriber.swift:102-104 | removing each stored token leaves the table with every registration under those tokens removed and the rest in order |
| KeyboardSubscription.AddObservers | KeyboardAvoidance/KeyboardSubscriber.swift:88-96 | one registration is appended per pair of `notifications`, under fresh increasing tokens, carrying exactly the blocks the pairs call for, with distinct names whenever the pairs carry distinct names |
| KeyboardSubscription.KeyboardSubscriber.constructor | KeyboardAvoidance/KeyboardSubscriber.swift:74-76 | a new subscriber has no observers and owns nothing in the centre |
| KeyboardSubscription.KeyboardSubscriber.StopReceivingKeyboardEvents | KeyboardAvoidance/KeyboardSubscriber.swift:101-106 | every stored observer is removed from the centre, `observers` becomes empty, and everybody else's registrations are unchanged |
| KeyboardSubscription.KeyboardSubscriber.SubscribeToKeyboardEvents | KeyboardAvoidance/KeyboardSubscriber.swift:83-97 | afterwards the subscriber owns one registration per selected pair under fresh tokens, none from an earlier subscription, and nobody else's registrations change |
| KeyboardSubscription.KeyboardSubscriber.Register | KeyboardAvoidance/KeyboardSubscriber.swift:88-96 | with nothing of its own in the centre, the subscriber registers one block per selected pair under tokens newer than any before, stores them, and owns exactly those registrations; the rest of the table is kept |
| KeyboardSubscription.KeyboardSubscriber.Deinit | KeyboardAvoidance/KeyboardSubscriber.swift:108-110 | teardown leaves no registration of the subscriber in the centre |
| KeyboardSubscription.KeyboardSubscriber.Deliver | KeyboardAvoidance/KeyboardSubscriber.swift:92-94 | posting a notification calls `onEvent` exactly once if it is present and the name is selected, and never otherwise; the event's type is the option paired with the name, and its fields are decoded from the payload |
| KeyboardSubscription.RunOwnBlocks | KeyboardAvoidance/KeyboardSubscriber.swift:92-94 | the calls are those made by the fired registrations under the subscriber's tokens, in firing order, one for each block that has a callback |
| KeyboardSubscription.RunBlocks | KeyboardAvoidance/KeyboardSubscriber.swift:93-94 | each fired block calls its handler, when it has one, with the event built from the payload for the block's option: there are never more calls than fired blocks, exactly one per block when every block has a handler, and each call comes from one of the fired blocks |
| KeyboardSubscription.MatchingOfSubscription | KeyboardAvoidance/KeyboardSubscriber.swift:88-96 | with one registration per selected pair, a post fires one of the subscriber's registrations if the name is selected and none otherwise, with the block for that name |
| KeyboardSubscription.DeliverToSubscription | KeyboardAvoidance/KeyboardSubscriber.swift:92-94 | the blocks fired for a subscription call `onEvent` once for a selected name when there is a callback, with the paired option |
| KeyboardSubscription.SubscribeTwice | KeyboardAvoidance/KeyboardSubscriber.swift:84-85 | subscribing twice leaves the same registrations as subscribing once |
| KeyboardSubscription.StopTwice | KeyboardAvoidance/KeyboardSubscriber.swift:101-106 | stopping twice leaves the same table as stopping once |
| KeyboardSubscription.ConsistentBesideChange | KeyboardAvoidance/KeyboardSubscriber.swift:91-104 | removing tokens a subscriber does not hold and appending registrations under newer tokens leaves its own registrations the same, and it stays consistent |
| KeyboardSubscription.SubscribeBesideAnother | KeyboardAvoidance/KeyboardSubscriber.swift:83-97 | when one subscriber re-subscribes, another on the same centre holding other tokens keeps its registrations and stays valid |
| KeyboardSubscription.StopBesideAnother | KeyboardAvoidance/KeyboardSubscriber.swift:101-106 | when one subscriber stops, another on the same centre holding other tokens keeps its registrations and stays valid |
| Geometry.Intersection | KeyboardAvoidance/KeyboardAvoider.swift:60 | the intersection exists iff the two closed rectangles overlap; it has non-negative size and lies vertically within both |
| Geometry.IntersectionIsCommonRegion | KeyboardAvoidance/KeyboardAvoider.swift:60 | a point lies in the intersection iff it lies in both rectangles; no point lies in both when the result is null |
| Geometry.IntersectionCommutes | KeyboardAvoidance/KeyboardAvoider.swift:60 | the intersection does not depend on argument order |
| Geometry.IntersectionHeight | KeyboardAvoidance/KeyboardAvoider.swift:60-67 | the height is between 0 and both rectangles' heights; it is 0 when they do not overlap, and positive iff their vertical spans overlap with positive length |
| Geometry.KeyboardBelowContainer | KeyboardAvoidance/KeyboardAvoider.swift:59-67 | a keyboard entirely below the container gives height 0 |
| Geometry.KeyboardOverLowerPart | KeyboardAvoidance/KeyboardAvoider.swift:59-67 | a keyboard over the container's lower 300 points gives height 300 |
| Geometry.KeyboardBesideContainer | KeyboardAvoidance/KeyboardAvoider.swift:59-67 | a keyboard touching only the container's right edge gives a zero-width intersection and height 300, its vertical overlap |
| Avoidance.ShiftLeft16 | KeyboardAvoidance/KeyboardAvoider.swift:81 | `raw << 16` on a 64-bit `Int` is a signed 64-bit value with its low 16 bits zero, and equals raw × 65536 whenever that fits |
| Avoidance.AnimationOptionsFromCurve | KeyboardAvoidance/KeyboardAvoider.swift:79-82 | `UInt(curve.rawValue << 16)` traps (the result is None) exactly when the shifted value is negative; when the shift fits in 64 bits, it succeeds iff the raw curve is non-negative, and the options' raw value is then raw × 65536 |
| Avoidance.AnimationOptionsRoundTrip | KeyboardAvoidance/KeyboardAvoider.swift:79-82 | every raw curve from 0 up to 2^47 gives options without trapping, and the curve can be read back from them |
| Avoidance.NamedCurveOptions | KeyboardAvoidance/KeyboardAvoider.swift:79-82 | the four named curves give 0, 65536, 131072 and 196608; raw curve 7 gives 458752 |
| Avoidance.NegativeCurveTraps | KeyboardAvoidance/KeyboardAvoider.swift:81 | a negative raw curve whose shift fits traps in `UInt(_:)` |
| Avoidance.AnimationOptionsInjective | KeyboardAvoidance/KeyboardAvoider.swift:79-82 | two raw curves from 0 up to 2^47 that give the same options are the same curve |
| Avoidance.AssignOverlap | KeyboardAvoidance/KeyboardAvoider.swift:31-42 | assigning from h0 to h1 changes the bottom inset by exactly h1 - h0 and leaves top, left and right unchanged |
| Avoidance.AssignSameHeight | KeyboardAvoidance/KeyboardAvoider.swift:31-42 | assigning the current height leaves the insets unchanged |
| Avoidance.AssignZeroRestores | KeyboardAvoidance/KeyboardAvoider.swift:31-42 | assigning 0 restores the base insets |
| Avoidance.AssignmentsDoNotAccumulate | KeyboardAvoidance/KeyboardAvoider.swift:31-42 | after any non-empty sequence of assignments, the insets are the base insets plus the last height assigned |
| Avoidance.KeyboardAvoider.constructor | KeyboardAvoidance/KeyboardAvoider.swift:51-54 | a new avoider has overlap 0, and the container's current insets are its base |
| Avoidance.KeyboardAvoider.SetOverlapHeight | KeyboardAvoidance/KeyboardAvoider.swift:31-42 | after willSet and didSet, the container's insets are the old insets with the bottom moved by the new height minus the old one, so `insets == base + overlapHeight` is kept; only the fields behind `insets` are written: the bounds and the fields this view's `insets` does not use keep their values, and a scrolling view's indicator insets equal its content inset |
| Avoidance.KeyboardAvoider.HandleKeyboardEvent | KeyboardAvoidance/KeyboardAvoider.swift:58-68 | the options are those for the event's curve; when the conversion succeeds, `overlapHeight` becomes the height of bounds ∩ convertRect(finalFrame), which lies in [0, bounds height], and only the fields behind `insets` are written (bounds and unused inset fields kept, indicator insets equal to content inset); when it traps, neither the avoider nor the container changes; the animation uses the event's duration; the inset invariant is kept |
| Avoidance.KeyboardAvoider.StartSubscribing | KeyboardAvoidance/KeyboardAvoider.swift:57-58 | the subscriber holds exactly one registration, for the WillChangeFrame notification, calling this avoider; other registrations are unchanged; `overlapHeight`, the base insets and the container's insets are kept |
| Avoidance.StartTwice | KeyboardAvoidance/KeyboardAvoider.swift:57-58 | starting twice still leaves a single registration |
| Avoidance.KeyboardAvoider.StopSubscribing | KeyboardAvoidance/KeyboardAvoider.swift:74-76 | the subscription is removed; `overlapHeight`, the base insets and the container's insets keep their last values |
| Avoidance.KeyboardAvoider.ReceiveNotification | KeyboardAvoidance/KeyboardAvoider.swift:58-69 | a notification the avoider subscribed to sets `overlapHeight` to the overlap with the decoded final frame, and writes only the fields behind `insets`, unless the curve conversion traps; otherwise neither the avoider nor the container changes |
| Containers.Container.SetInsets | KeyboardAvoidance/UIView-Container.swift:37-110 | `KeyboardAvoidingView` writes `layoutMargins`, the scroll, table, collection and text views write `contentInset` and `scrollIndicatorInsets` together; reading `insets` afterwards gives the value set, and the other inset fields and the bounds are unchanged |
| Containers.Container.Insets | KeyboardAvoidance/UIView-Container.swift:38-106 | the `insets` getter returns `layoutMargins` for `KeyboardAvoidingView` and `contentInset` for the scroll, table, collection and text views |
| AvoidingViews.KeyboardAvoidingContainer.SetupAvoider | KeyboardAvoidance/UIView-Container.swift:22-24 | a new avoider with a new subscriber on the default centre, managing this view, not subscribed and with nothing adjusted |
| AvoidingViews.KeyboardAvoidingContainer.Avoider | KeyboardAvoidance/UIView-Container.swift:44 | the lazy `avoider` is created by `setupAvoider()` on first read, and the same object is returned afterwards |
| AvoidingViews.KeyboardAvoidingContainer.OnMove | KeyboardAvoidance/UIView-Container.swift:26-32 | with a window the avoider is subscribed to WillChangeFrame only; without one it is unsubscribed; the view's insets and all other registrations are unchanged; an existing avoider keeps its `overlapHeight` and base insets, and a new one starts at 0 over the current insets |
| AvoidingViews.AttachThenDetach | KeyboardAvoidance/UIView-Container.swift:26-32 | moving into a window and out again leaves the avoider unsubscribed, with the view's insets as they were and the avoider's `overlapHeight` and base insets unchanged (0 and the current insets for a new avoider) |
| AvoidingViews.MoveBesideAnother | KeyboardAvoidance/UIView-Container.swift:26-32 | moving one view into or out of a window leaves another view on the same centre valid, with the same avoider, registrations and insets, and the two hold no token in common |

## Left out

- Notification delivery queues, threading and the `object:` sender filter are not modelled. The centre is a table with add, remove and post, and the sender is always nil (any sender).
- A callback is identified by the object whose handler it runs, not by an arbitrary closure. `Deliver` returns the calls made, and only the avoider's handler is executed (`ReceiveNotification`). Blocks of other observers in the same centre are not run.
- `UIView.animate` is taken to run its block to completion at once. The duration and options are returned, not used to interpolate.
- `convertRect(_:fromView:)` is an arbitrary total function fixed for each container.
- `CGFloat` and `Double` are `real`, so floating-point rounding is not modelled.
- `Geometry.Intersection` follows closed-span semantics, as `CGRect.intersection` does for rectangles that share an edge. Rectangles that touch along a horizontal edge give a zero-height rectangle. Rectangles that touch along a vertical edge give a zero-width rectangle whose height is their vertical overlap. The handler adds that height even though the keyboard covers no area of the container: a keyboard just beside it overlapping 300 points vertically sets `overlapHeight` to 300 (`Geometry.KeyboardBesideContainer`). Infinite rectangles are not modelled.
- `layoutIfNeeded` and UIKit's own adjustment of layout margins are not modelled. The inset fields are plain fields.
- `super.willMove(toWindow:)` is UIKit's and is not modelled. `OnMove` covers the five `willMove(toWindow:)` overrides, which only forward to it.
- `unowned` references and the moment `deinit` runs are not modelled. `Deinit` is an explicit method with the same teardown.
- The avoider's `container` and `keyboardSubscriber` are never reassigned in the library, so they are constants here.
- `KeyboardEventOptions.rawValue` is a Swift `Int`, 32 or 64 bits wide depending on the device. Only bits 0 to 5 are ever used, so it is modelled as `bv64`.
- Avoidance.AnimationOptionsFromCurve: `Int` is taken to be 64 bits wide. On a 32-bit device the shift already wraps for raw curves outside -2^15 to 2^15, which the model does not capture.
- Avoidance.KeyboardAvoider.HandleKeyboardEvent: the trap in `UInt(_:)` on a negative shifted curve is modelled as options of `None` with no change of state. The real program stops.
- AvoidingViews.MoveBesideAnother: afterwards it states that the two views hold no token in common, but not the whole of `Independent` (that their objects are distinct), so a second move needs that restated.
- The six options are `public static var`s (`KeyboardAvoidance/KeyboardSubscriber.swift:18-23`), so client code could reassign them. The model takes them as constants with their declared bit values.
- The `avoider` property can also be set (`{ get set }` at `KeyboardAvoidance/UIView-Container.swift:14`, and `lazy var` at :44). The model has only the lazy getter, so replacing a view's avoider from outside is not modelled.
- Writes to the container's insets by anyone other than its avoider are not modelled. `layoutMargins` and `contentInset` are public UIKit properties, and application code can assign them (the demo controller resets a view's `layoutMargins` whenever editing ends, at `KeyboardAvoidance/ViewController.swift:21`). `KeyboardAvoider.Valid()` fixes the base insets when the avoider is created, and every avoider method requires it. After an outside write, the property observers still move the bottom inset by the change in height (`Avoidance.AssignOverlap` holds for any insets), but `insets.bottom == base + overlapHeight` no longer holds for the original base.
- The `hashValue` extension only returns the raw value. Datatype equality plays its role.
- KeyboardAvoidance/KeyboardEventOptions.h only repeats the six bit values, and is not part of this model.
- KeyboardAvoidance/ViewController.swift is a demo controller, and is not part of this model.
- `KeyboardSubscriber.keyboardFrame` is never written by the library, so it is not modelled.
- KeyboardSubscription.MakeEventInfo: `NSNumber` bridging is not modelled. A payload value of the wrong kind (a double under the curve key, an integer under the duration key) counts as missing, although Foundation could convert some such numbers.
