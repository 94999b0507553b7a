/** The third-party sign-in buttons: the order and grid layout of the
    enabled providers, and what tapping one does. */
module SocialProviders {
  import opened Outcomes
  import opened Entities

  // ---------------------------------------------------------------------
  // Order

  /** `s` is in ascending order of `rank`, the providers' `Comparable`
      order. */
  ghost predicate SortedBy<P>(s: seq<P>, rank: P -> int) {
    forall i, j :: 0 <= i < j < |s| ==> rank(s[i]) <= rank(s[j])
  }

  /** Inserts `x` before the first element that ranks at or above it. */
  function Insert<P>(x: P, s: seq<P>, rank: P -> int): (r: seq<P>)
    requires SortedBy(s, rank)
    ensures SortedBy(r, rank)
    ensures multiset(r) == multiset(s) + multiset{x}
    ensures |r| == |s| + 1
    decreases |s|
  {
    if |s| == 0 then [x]
    else if rank(x) <= rank(s[0]) then [x] + s
    else
      var tail := Insert(x, s[1..], rank);
      assert s == [s[0]] + s[1..];
      assert multiset(tail) == multiset(s[1..]) + multiset{x};
      assert rank(s[0]) <= rank(tail[0]) by {
        assert tail[0] in multiset(tail);
      }
      [s[0]] + tail
  }

  /** `enabledThirdPartyProviders.sorted()`: the same providers, in
      ascending order. */
  function SortedProviders<P>(providers: seq<P>, rank: P -> int): (r: seq<P>)
    ensures SortedBy(r, rank)
    ensures multiset(r) == multiset(providers)
    decreases |providers|
  {
    if |providers| == 0 then []
    else
      assert providers == [providers[0]] + providers[1..];
      Insert(providers[0], SortedProviders(providers[1..], rank), rank)
  }

  /** The head of a sorted sequence ranks no higher than anything in it. */
  lemma HeadIsMinimal<P>(s: seq<P>, x: P, rank: P -> int)
    requires SortedBy(s, rank) && x in multiset(s)
    ensures rank(s[0]) <= rank(x)
  {
    var i :| 0 <= i < |s| && s[i] == x;
  }

  /** Removing the head removes one occurrence of it. */
  lemma TailContents<P>(s: seq<P>)
    requires |s| > 0
    ensures multiset(s[1..]) == multiset(s) - multiset{s[0]}
  {
    assert s == [s[0]] + s[1..];
  }

  /** No two distinct elements of `s` share a rank: the order is total on
      them. */
  ghost predicate RankIsInjectiveOn<P>(s: seq<P>, rank: P -> int) {
    forall i, j :: 0 <= i < |s| && 0 <= j < |s| && rank(s[i]) == rank(s[j]) ==> s[i] == s[j]
  }

  /** Among sequences in ascending order of a rank that no two of their
      distinct elements share, the contents fix the order: so the sorted list
      of providers is the only ordering the buttons can appear in. */
  lemma {:induction false} SortedOrderIsUnique<P>(a: seq<P>, b: seq<P>, rank: P -> int)
    requires SortedBy(a, rank) && SortedBy(b, rank)
    requires multiset(a) == multiset(b)
    requires RankIsInjectiveOn(a, rank)
    ensures a == b
    decreases |a|
  {
    assert |a| == |b| by {
      assert |a| == |multiset(a)| && |b| == |multiset(b)|;
    }
    if |a| > 0 {
      assert a[0] == b[0] by {
        assert b[0] in multiset(a) && a[0] in multiset(b) by {
          assert b[0] in multiset(b) && a[0] in multiset(a);
        }
        HeadIsMinimal(a, b[0], rank);
        HeadIsMinimal(b, a[0], rank);
      }
      TailContents(a);
      TailContents(b);
      assert RankIsInjectiveOn(a[1..], rank) by {
        forall i, j | 0 <= i < |a[1..]| && 0 <= j < |a[1..]| && rank(a[1..][i]) == rank(a[1..][j])
          ensures a[1..][i] == a[1..][j]
        {
          assert a[1..][i] == a[i + 1] && a[1..][j] == a[j + 1];
        }
      }
      SortedOrderIsUnique(a[1..], b[1..], rank);
    }
  }

  /** Sorting does not depend on the order the environment lists the
      providers in. */
  lemma SortingForgetsInputOrder<P>(p: seq<P>, q: seq<P>, rank: P -> int)
    requires multiset(p) == multiset(q)
    requires RankIsInjectiveOn(p, rank)
    ensures SortedProviders(p, rank) == SortedProviders(q, rank)
  {
    var a := SortedProviders(p, rank);
    assert RankIsInjectiveOn(a, rank) by {
      forall i, j | 0 <= i < |a| && 0 <= j < |a| && rank(a[i]) == rank(a[j])
        ensures a[i] == a[j]
      {
        assert a[i] in multiset(p) && a[j] in multiset(p) by {
          assert a[i] in multiset(a) && a[j] in multiset(a);
        }
        var k :| 0 <= k < |p| && p[k] == a[i];
        var l :| 0 <= l < |p| && p[l] == a[j];
      }
    }
    SortedOrderIsUnique(a, SortedProviders(q, rank), rank);
  }

  // ---------------------------------------------------------------------
  // Layout

  /** The grid's column count `min(n, n <= 2 ? 1 : 6)` for `n` providers. */
  function ColumnCount(n: nat): (c: nat)
    ensures n == 0 ==> c == 0
    ensures 1 <= n <= 2 ==> c == 1
    ensures 3 <= n <= 6 ==> c == n
    ensures 6 < n ==> c == 6
    ensures c <= n && c <= 6
  {
    var cap := if n <= 2 then 1 else 6;
    if n < cap then n else cap
  }

  /** The style of every button: full-width with two providers or fewer,
      icon-only otherwise. */
  datatype ButtonStyle = Regular | Compact

  /** Full-width buttons are exactly the layouts with at most one column, and icon
      buttons sit in a grid of at least three columns. */
  function ButtonStyleFor(n: nat): (s: ButtonStyle)
    ensures s == Regular <==> n <= 2
    ensures s == Regular <==> ColumnCount(n) <= 1
    ensures s == Compact ==> ColumnCount(n) >= 3
  {
    if n <= 2 then Regular else Compact
  }

  // ---------------------------------------------------------------------
  // Tapping a provider

  /** The closure given to `onSuccess(perform:)`, known by identity. */
  datatype Handler = Handler(tag: nat)

  /** The view's state: its `errorWrapper` and its `onSuccess` closure. */
  datatype View = View(errorWrapper: Option<Error>, onSuccess: Option<Handler>)

  /** `onSuccess(perform:)`: a copy of the view with the closure replaced. */
  function WithOnSuccess(v: View, h: Handler): (r: View)
    ensures r.onSuccess == Some(h)
    ensures r.errorWrapper == v.errorWrapper
  {
    v.(onSuccess := Some(h))
  }

  /** Only the last closure given is kept. */
  lemma LastHandlerWins(v: View, a: Handler, b: Handler)
    ensures WithOnSuccess(WithOnSuccess(v, a), b) == WithOnSuccess(v, b)
  {
  }

  /** The calls tapping a provider makes, in order. */
  datatype SocialCall<P> = CreateOAuth(provider: P) | StartOAuth | InvokeOnSuccess(handler: Handler)

  datatype TapResult<P> = TapResult(calls: seq<SocialCall<P>>, errorWrapper: Option<Error>)

  /** The error thrown by `create(.oauth)` or else by `startOAuth`, if any. */
  function Thrown<P>(provider: P, create: P -> Outcome<SignIn>, startOAuth: SignIn -> Outcome<()>): Option<Error> {
    if create(provider).Fail? then Some(create(provider).error)
    else if startOAuth(create(provider).value).Fail? then Some(startOAuth(create(provider).value).error)
    else None
  }

  /** `signIn(provider:)`: create an OAuth sign-in, start the OAuth flow on
      the sign-in that results, then call `onSuccess` if one was given. The
      user cancelling the web session is absorbed; any other error is
      recorded. `create` returns the sign-in the client holds afterwards. */
  function SignInWith<P>(v: View, provider: P, create: P -> Outcome<SignIn>, startOAuth: SignIn -> Outcome<()>)
    : (r: TapResult<P>)
    ensures |r.calls| >= 1 && r.calls[0] == CreateOAuth(provider)
    ensures StartOAuth in r.calls <==> create(provider).Ok?
    ensures StartOAuth in r.calls ==> r.calls[1] == StartOAuth
    ensures |r.calls| == 1 + (if StartOAuth in r.calls then 1 else 0)
      + (if exists h :: InvokeOnSuccess(h) in r.calls then 1 else 0)
    ensures (exists h :: InvokeOnSuccess(h) in r.calls) <==>
      Thrown(provider, create, startOAuth).None? && v.onSuccess.Some?
    ensures forall h :: InvokeOnSuccess(h) in r.calls ==> v.onSuccess == Some(h) && r.calls[|r.calls| - 1] == InvokeOnSuccess(h)
    ensures Thrown(provider, create, startOAuth) in {None, Some(CanceledLogin)} ==> r.errorWrapper == v.errorWrapper
    ensures Thrown(provider, create, startOAuth).Some? && Thrown(provider, create, startOAuth) != Some(CanceledLogin) ==>
      r.errorWrapper == Thrown(provider, create, startOAuth)
  {
    var recorded := match Thrown(provider, create, startOAuth)
      case Some(e) => if e == CanceledLogin then v.errorWrapper else Some(e)
      case None => v.errorWrapper;
    match create(provider)
    case Fail(_) => TapResult([CreateOAuth(provider)], recorded)
    case Ok(s) =>
      match startOAuth(s)
      case Fail(_) => TapResult([CreateOAuth(provider), StartOAuth], recorded)
      case Ok(_) =>
        match v.onSuccess
        case None => TapResult([CreateOAuth(provider), StartOAuth], recorded)
        case Some(h) =>
          var res := TapResult([CreateOAuth(provider), StartOAuth, InvokeOnSuccess(h)], recorded);
          assert res.calls[2] == InvokeOnSuccess(h);
          res
  }

  /** A cancelled login leaves the view as it was, whichever step the user
      cancelled. */
  lemma CancelLeavesViewUnchanged<P>(v: View, provider: P, create: P -> Outcome<SignIn>, startOAuth: SignIn -> Outcome<()>)
    requires Thrown(provider, create, startOAuth) == Some(CanceledLogin)
    ensures SignInWith(v, provider, create, startOAuth).errorWrapper == v.errorWrapper
    ensures forall h :: InvokeOnSuccess(h) !in SignInWith(v, provider, create, startOAuth).calls
  {
  }
}
