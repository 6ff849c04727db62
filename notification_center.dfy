/**
 * An abstract model of the platform notification centre the subscriber talks to:
 * a table of registrations, each pairing an opaque token (the observer object
 * `addObserver(forName:object:queue:using:)` returns) with a notification name
 * and the block to run. Queues, the `object` filter and threading are not modelled.
 */
module Notifications {

  /** `Notification.Name`: the six keyboard notifications and any other name. */
  datatype NotificationName =
    | UIKeyboardWillChangeFrame
    | UIKeyboardDidChangeFrame
    | UIKeyboardWillShow
    | UIKeyboardDidShow
    | UIKeyboardWillHide
    | UIKeyboardDidHide
    | OtherNotification(raw: string)

  /** The opaque observer handle returned by `addObserver`. */
  type Token = nat

  datatype Registration<B> = Registration(token: Token, name: NotificationName, block: B)

  /** The registrations of `es` that are posted for `name`, in registration order. */
  function Matching<B>(es: seq<Registration<B>>, name: NotificationName): seq<Registration<B>> {
    if es == [] then []
    else
      var last := es[|es| - 1];
      Matching(es[..|es| - 1], name) + (if last.name == name then [last] else [])
  }

  /**
   * The registrations of `es` whose token is (`keep`) or is not (`!keep`) one
   * of `ts`, in order.
   */
  function FilterTokens<B>(es: seq<Registration<B>>, ts: seq<Token>, keep: bool): seq<Registration<B>> {
    if es == [] then []
    else
      var last := es[|es| - 1];
      FilterTokens(es[..|es| - 1], ts, keep) + (if (last.token in ts) == keep then [last] else [])
  }

  /** A post reaches exactly the registrations for its name. */
  lemma {:induction false} MatchingMember<B>(es: seq<Registration<B>>, name: NotificationName, r: Registration<B>)
    ensures r in Matching(es, name) <==> r in es && r.name == name
  {
    if es != [] {
      var init := es[..|es| - 1];
      MatchingMember(init, name, r);
      assert es == init + [es[|es| - 1]];
    }
  }

  /** Filtering keeps exactly the registrations whose token passes the test. */
  lemma {:induction false} FilterTokensMember<B>(es: seq<Registration<B>>, ts: seq<Token>, keep: bool, r: Registration<B>)
    ensures r in FilterTokens(es, ts, keep) <==> r in es && (r.token in ts) == keep
  {
    if es != [] {
      var init := es[..|es| - 1];
      FilterTokensMember(init, ts, keep, r);
      assert es == init + [es[|es| - 1]];
    }
  }

  /** Tokens appear in `es` in strictly increasing order, so no token appears twice. */
  ghost predicate TokensIncreasing<B>(es: seq<Registration<B>>) {
    forall i, j :: 0 <= i < j < |es| ==> es[i].token < es[j].token
  }

  /** A token list in strictly increasing order, so without repetition. */
  ghost predicate Increasing(ts: seq<Token>) {
    forall i, j :: 0 <= i < j < |ts| ==> ts[i] < ts[j]
  }

  /** A token above every token of an increasing sequence keeps it increasing. */
  lemma IncreasingAppend(ts: seq<Token>, t: Token)
    requires Increasing(ts) && forall i | 0 <= i < |ts| :: ts[i] < t
    ensures Increasing(ts + [t])
  {
  }

  /** No two registrations of `es` are for the same name. */
  ghost predicate NamesDistinct<B>(es: seq<Registration<B>>) {
    forall i, j :: 0 <= i < j < |es| ==> es[i].name != es[j].name
  }

  lemma {:induction false} FilterTokensAppend<B>(a: seq<Registration<B>>, b: seq<Registration<B>>, ts: seq<Token>, keep: bool)
    ensures FilterTokens(a + b, ts, keep) == FilterTokens(a, ts, keep) + FilterTokens(b, ts, keep)
    decreases |b|
  {
    if b == [] {
      assert a + b == a;
    } else {
      var b' := b[..|b| - 1];
      assert (a + b)[..|a + b| - 1] == a + b';
      FilterTokensAppend(a, b', ts, keep);
    }
  }

  /** Filtering keeps everything when every token passes the test. */
  lemma {:induction false} FilterTokensAll<B>(es: seq<Registration<B>>, ts: seq<Token>, keep: bool)
    requires forall i | 0 <= i < |es| :: (es[i].token in ts) == keep
    ensures FilterTokens(es, ts, keep) == es
  {
    if es != [] {
      var init := es[..|es| - 1];
      FilterTokensAll(init, ts, keep);
      assert init + [es[|es| - 1]] == es;
    }
  }

  /** Filtering removes everything when no token passes the test. */
  lemma {:induction false} FilterTokensNone<B>(es: seq<Registration<B>>, ts: seq<Token>, keep: bool)
    requires forall i | 0 <= i < |es| :: (es[i].token in ts) != keep
    ensures FilterTokens(es, ts, keep) == []
  {
    if es != [] {
      var init := es[..|es| - 1];
      FilterTokensNone(init, ts, keep);
    }
  }

  /** Filtering keeps the tokens in increasing order. */
  lemma {:induction false} FilterTokensIncreasing<B>(es: seq<Registration<B>>, ts: seq<Token>, keep: bool)
    requires TokensIncreasing(es)
    ensures TokensIncreasing(FilterTokens(es, ts, keep))
  {
    if es != [] {
      var init, last := es[..|es| - 1], es[|es| - 1];
      var f := FilterTokens(init, ts, keep);
      FilterTokensIncreasing(init, ts, keep);
      if (last.token in ts) == keep {
        forall i | 0 <= i < |f|
          ensures f[i].token < last.token
        {
          FilterTokensMember(init, ts, keep, f[i]);
          var k :| 0 <= k < |init| && init[k] == f[i];
        }
        assert FilterTokens(es, ts, keep) == f + [last];
      }
    }
  }

  /**
   * Taking out the tokens `removed` does not change which registrations carry
   * the tokens `kept`, when no token is in both.
   */
  lemma {:induction false} FilterKeptAfterRemoval<B>(es: seq<Registration<B>>, removed: seq<Token>, kept: seq<Token>)
    requires forall t | t in kept :: t !in removed
    ensures FilterTokens(FilterTokens(es, removed, false), kept, true) == FilterTokens(es, kept, true)
  {
    if es != [] {
      var init, last := es[..|es| - 1], es[|es| - 1];
      FilterKeptAfterRemoval(init, removed, kept);
      var r := FilterTokens(init, removed, false);
      if last.token !in removed {
        assert FilterTokens(es, removed, false) == r + [last];
        assert (r + [last])[..|r + [last]| - 1] == r;
      } else {
        assert FilterTokens(es, removed, false) == r;
      }
    }
  }

  /**
   * When one party takes its tokens `removed` out of the table and appends
   * registrations under tokens from `n` on, the registrations of a party whose
   * tokens `kept` are all older than `n` and none of `removed` stay as they were.
   */
  lemma OthersUnaffected<B>(before: seq<Registration<B>>, added: seq<Registration<B>>,
                            removed: seq<Token>, kept: seq<Token>, n: Token)
    requires forall i | 0 <= i < |added| :: added[i].token >= n
    requires forall t | t in kept :: t < n && t !in removed
    ensures FilterTokens(FilterTokens(before, removed, false) + added, kept, true) == FilterTokens(before, kept, true)
  {
    FilterTokensAppend(FilterTokens(before, removed, false), added, kept, true);
    FilterKeptAfterRemoval(before, removed, kept);
    FilterTokensNone(added, kept, true);
  }

  /** Removing the tokens `ts` and then `t` is removing `ts + [t]`. */
  lemma {:induction false} RemoveOneMore<B>(es: seq<Registration<B>>, ts: seq<Token>, t: Token)
    ensures FilterTokens(FilterTokens(es, ts, false), [t], false) == FilterTokens(es, ts + [t], false)
  {
    if es != [] {
      var init, last := es[..|es| - 1], es[|es| - 1];
      var a := FilterTokens(init, ts, false);
      var x := if last.token !in ts then [last] else [];
      assert FilterTokens(es, ts, false) == a + x;
      FilterTokensAppend(a, x, [t], false);
      RemoveOneMore(init, ts, t);
      var y := if last.token !in ts + [t] then [last] else [];
      assert FilterTokens(es, ts + [t], false) == FilterTokens(init, ts + [t], false) + y;
      assert FilterTokens(x, [t], false) == y by {
        if x != [] {
          assert x[..0] == [];
        }
      }
    }
  }

  /** Posting and restricting to some tokens commute. */
  lemma {:induction false} MatchingFilterTokens<B>(es: seq<Registration<B>>, ts: seq<Token>, name: NotificationName)
    ensures FilterTokens(Matching(es, name), ts, true) == Matching(FilterTokens(es, ts, true), name)
  {
    if es != [] {
      var init, last := es[..|es| - 1], es[|es| - 1];
      MatchingFilterTokens(init, ts, name);
      var m := Matching(init, name);
      var f := FilterTokens(init, ts, true);
      if last.name == name {
        assert Matching(es, name) == m + [last];
        FilterTokensAppend(m, [last], ts, true);
        assert [last][..0] == [];
        if last.token in ts {
          assert FilterTokens(es, ts, true) == f + [last];
          assert (f + [last])[..|f + [last]| - 1] == f;
        } else {
          assert FilterTokens(es, ts, true) == f;
        }
      } else {
        assert Matching(es, name) == m;
        if last.token in ts {
          assert FilterTokens(es, ts, true) == f + [last];
          assert (f + [last])[..|f + [last]| - 1] == f;
        } else {
          assert FilterTokens(es, ts, true) == f;
        }
      }
    }
  }

  /** A name no registration carries reaches nothing. */
  lemma {:induction false} MatchingAbsent<B>(es: seq<Registration<B>>, name: NotificationName)
    requires forall i :: 0 <= i < |es| ==> es[i].name != name
    ensures Matching(es, name) == []
  {
    if es != [] {
      MatchingAbsent(es[..|es| - 1], name);
    }
  }

  /** With distinct names, a post reaches at most one registration. */
  lemma {:induction false} MatchingAtMostOne<B>(es: seq<Registration<B>>, name: NotificationName)
    requires NamesDistinct(es)
    ensures |Matching(es, name)| <= 1
  {
    if es != [] {
      var init, last := es[..|es| - 1], es[|es| - 1];
      if last.name == name {
        MatchingAbsent(init, name);
      } else {
        MatchingAtMostOne(init, name);
      }
    }
  }

  class NotificationCenter<B> {
    /** The registration table, in the order observers were added. */
    var entries: seq<Registration<B>>
    /** The token the next `AddObserver` hands out. */
    var nextToken: Token

    /** Every token in the table was handed out, and tokens are unique and in the order they were added. */
    ghost predicate Valid()
      reads this
    {
      (forall i :: 0 <= i < |entries| ==> entries[i].token < nextToken) &&
      TokensIncreasing(entries)
    }

    constructor ()
      ensures Valid() && entries == []
    {
      entries, nextToken := [], 0;
    }

    /** `addObserver(forName:object:queue:using:)`: registers `block` for `name` under a fresh token. */
    method AddObserver(name: NotificationName, block: B) returns (token: Token)
      requires Valid()
      modifies this
      ensures Valid()
      ensures token == old(nextToken) && nextToken == token + 1
      ensures entries == old(entries) + [Registration(token, name, block)]
    {
      token := nextToken;
      entries := entries + [Registration(token, name, block)];
      nextToken := nextToken + 1;
    }

    /** `removeObserver(_:)`: drops the registration of `token`; an unknown token is ignored. */
    method RemoveObserver(token: Token)
      requires Valid()
      modifies this
      ensures Valid() && nextToken == old(nextToken)
      ensures entries == FilterTokens(old(entries), [token], false)
    {
      var kept := FilterTokens(entries, [token], false);
      FilterTokensIncreasing(entries, [token], false);
      forall i | 0 <= i < |kept|
        ensures kept[i].token < nextToken
      {
        FilterTokensMember(entries, [token], false, kept[i]);
      }
      entries := kept;
    }

    /** Posting `name`: the registrations whose blocks run, in order. */
    method Post(name: NotificationName) returns (fired: seq<Registration<B>>)
      ensures fired == Matching(entries, name)
    {
      fired := [];
      var i := 0;
      while i < |entries|
        invariant 0 <= i <= |entries|
        invariant fired == Matching(entries[..i], name)
      {
        assert entries[..i + 1][..i] == entries[..i];
        if entries[i].name == name {
          fired := fired + [entries[i]];
        }
        i := i + 1;
      }
      assert entries[..i] == entries;
    }
  }
}
