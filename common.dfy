/** Shared vocabulary of the model: an Option type, opaque connection
    identities, and the Python list operations the registries perform
    (`list.remove`, filtering comprehensions, "collect the failures, then
    remove each"). */
module Common {

  datatype Option<T> = None | Some(value: T)

  /** A WebSocket connection, reduced to an opaque identity. */
  type ConnId = nat

  /** Python's `d.get(k, default)`. */
  function GetOr<K, V>(m: map<K, V>, k: K, default: V): V
  {
    if k in m then m[k] else default
  }

  /** No element occurs twice. */
  predicate Distinct<T(==,!new)>(s: seq<T>)
    decreases |s|
  {
    |s| == 0 || (s[0] !in s[1..] && Distinct(s[1..]))
  }

  /** Python's `list.remove(x)`: the first occurrence of `x` goes, the rest
      keeps its order. (Python raises ValueError when `x` is absent; each
      caller models that case itself.) */
  function RemoveFirst<T(==,!new)>(s: seq<T>, x: T): (r: seq<T>)
    ensures x !in s ==> r == s
    ensures x in s ==> |r| == |s| - 1
    ensures forall y :: y != x ==> (y in r <==> y in s)
    ensures multiset(r) == multiset(s) - multiset{x}
    decreases |s|
  {
    if |s| == 0 then s
    else if s[0] == x then
      assert s == [s[0]] + s[1..];
      s[1..]
    else
      assert s == [s[0]] + s[1..];
      [s[0]] + RemoveFirst(s[1..], x)
  }

  /** The elements whose send did not fail, in their original order:
      `[c for c in s if c not in failing]`. */
  function Surviving<T(==,!new)>(s: seq<T>, failing: set<T>): (r: seq<T>)
    ensures forall y :: y in r <==> y in s && y !in failing
    ensures |r| <= |s|
    decreases |s|
  {
    if |s| == 0 then []
    else (if s[0] in failing then [] else [s[0]]) + Surviving(s[1..], failing)
  }

  /** The elements whose send failed, in their original order (the
      `disconnected` lists of the broadcast loops). */
  function FailedIn<T(==,!new)>(s: seq<T>, failing: set<T>): (r: seq<T>)
    ensures forall y :: y in r <==> y in s && y in failing
    decreases |s|
  {
    if |s| == 0 then []
    else (if s[0] in failing then [s[0]] else []) + FailedIn(s[1..], failing)
  }

  /** `n` copies of `x`: a connection handed to `disconnect` once per
      failed send, or a frame sent once per target. */
  function Repeated<T>(x: T, n: nat): (r: seq<T>)
    ensures |r| == n && forall k :: 0 <= k < n ==> r[k] == x
  {
    seq(n, _ => x)
  }

  /** `for x in xs: s.remove(x)` for elements known to be present, i.e.
      `RemoveFirst` applied once per element of `xs`, left to right. */
  function RemoveEach<T(==,!new)>(s: seq<T>, xs: seq<T>): seq<T>
    decreases |xs|
  {
    if |xs| == 0 then s else RemoveEach(RemoveFirst(s, xs[0]), xs[1..])
  }

  /** The set of elements of a list. */
  function Elems<T(==,!new)>(xs: seq<T>): (r: set<T>)
    ensures forall y :: y in r <==> y in xs
    decreases |xs|
  {
    if |xs| == 0 then {} else {xs[0]} + Elems(xs[1..])
  }

  /** `s` with its first `k` failing elements dropped (a proof device). */
  function DropFirstFailed<T(==,!new)>(s: seq<T>, failing: set<T>, k: nat): seq<T>
    decreases |s|
  {
    if |s| == 0 then []
    else if s[0] in failing && k > 0 then DropFirstFailed(s[1..], failing, k - 1)
    else [s[0]] + DropFirstFailed(s[1..], failing, k)
  }

  /** The oldest-first view of a newest-first list (Python's `list.reverse()`). */
  function Reversed<T>(s: seq<T>): (r: seq<T>)
    ensures |r| == |s|
    ensures forall k :: 0 <= k < |s| ==> r[k] == s[|s| - 1 - k]
    decreases |s|
  {
    if |s| == 0 then [] else [s[|s| - 1]] + Reversed(s[..|s| - 1])
  }

  // ---------------------------------------------------------------------
  // Lemmas about the list operations
  // ---------------------------------------------------------------------

  /** List concatenation regroups freely. */
  lemma AppendAssoc<T>(a: seq<T>, b: seq<T>, c: seq<T>)
    ensures a + (b + c) == (a + b) + c
  {
  }

  /** Filtering one more element at the end extends the surviving list;
      this is what the collecting loops of the broadcasts rely on. */
  lemma {:induction false} SurvivingSnoc<T(!new)>(a: seq<T>, x: T, failing: set<T>)
    ensures Surviving(a + [x], failing) == Surviving(a, failing) + (if x in failing then [] else [x])
    decreases |a|
  {
    if |a| == 0 {
      assert a + [x] == [x];
      assert Surviving([x], failing) == (if x in failing then [] else [x]) + Surviving([], failing);
    } else {
      var b := a + [x];
      assert b[0] == a[0];
      assert b[1..] == a[1..] + [x];
      SurvivingSnoc(a[1..], x, failing);
      var head, tail, rest := if a[0] in failing then [] else [a[0]], if x in failing then [] else [x], Surviving(a[1..], failing);
      assert Surviving(b, failing) == head + (rest + tail);
      assert Surviving(a, failing) == head + rest;
      AppendAssoc(head, rest, tail);
    }
  }

  /** The same for the list of failed elements. */
  lemma {:induction false} FailedInSnoc<T(!new)>(a: seq<T>, x: T, failing: set<T>)
    ensures FailedIn(a + [x], failing) == FailedIn(a, failing) + (if x in failing then [x] else [])
    decreases |a|
  {
    if |a| == 0 {
      assert a + [x] == [x];
      assert FailedIn([x], failing) == (if x in failing then [x] else []) + FailedIn([], failing);
    } else {
      var b := a + [x];
      assert b[0] == a[0];
      assert b[1..] == a[1..] + [x];
      FailedInSnoc(a[1..], x, failing);
      var head, tail, rest := if a[0] in failing then [a[0]] else [], if x in failing then [x] else [], FailedIn(a[1..], failing);
      assert FailedIn(b, failing) == head + (rest + tail);
      assert FailedIn(a, failing) == head + rest;
      AppendAssoc(head, rest, tail);
    }
  }

  lemma {:induction false} DropNoneFailed<T(!new)>(s: seq<T>, failing: set<T>)
    ensures DropFirstFailed(s, failing, 0) == s
    decreases |s|
  {
    if |s| > 0 {
      DropNoneFailed(s[1..], failing);
      assert s == [s[0]] + s[1..];
    }
  }

  lemma {:induction false} DropAllFailed<T(!new)>(s: seq<T>, failing: set<T>)
    ensures DropFirstFailed(s, failing, |FailedIn(s, failing)|) == Surviving(s, failing)
    decreases |s|
  {
    if |s| > 0 {
      DropAllFailed(s[1..], failing);
    }
  }

  /** Removing the first occurrence of the (k+1)-th failing element from a
      list whose first k failing elements are already gone removes exactly
      that element: earlier occurrences of it were failing ones, all gone. */
  lemma {:induction false} DropNextFailed<T(!new)>(s: seq<T>, failing: set<T>, k: nat)
    requires k < |FailedIn(s, failing)|
    ensures RemoveFirst(DropFirstFailed(s, failing, k), FailedIn(s, failing)[k])
            == DropFirstFailed(s, failing, k + 1)
    decreases |s|
  {
    var x := FailedIn(s, failing)[k];
    assert x in FailedIn(s, failing);
    if s[0] in failing {
      if k > 0 {
        DropNextFailed(s[1..], failing, k - 1);
      } else {
        DropNoneFailed(s[1..], failing);
        DropNoneFailed(s, failing);
      }
    } else {
      DropNextFailed(s[1..], failing, k);
      var t := DropFirstFailed(s[1..], failing, k);
      assert ([s[0]] + t)[1..] == t;
    }
  }

  lemma {:induction false} RemoveEachFrom<T(!new)>(s: seq<T>, failing: set<T>, k: nat)
    requires k <= |FailedIn(s, failing)|
    ensures RemoveEach(DropFirstFailed(s, failing, k), FailedIn(s, failing)[k..])
            == Surviving(s, failing)
    decreases |FailedIn(s, failing)| - k
  {
    var d := FailedIn(s, failing);
    if k == |d| {
      DropAllFailed(s, failing);
    } else {
      DropNextFailed(s, failing, k);
      assert d[k..][1..] == d[k + 1..];
      RemoveEachFrom(s, failing, k + 1);
    }
  }

  /** Collecting the failed elements and then removing each with
      `list.remove` leaves exactly the surviving elements in order, even
      when an element occurs several times. */
  lemma RemoveEachFailed<T(!new)>(s: seq<T>, failing: set<T>)
    ensures RemoveEach(s, FailedIn(s, failing)) == Surviving(s, failing)
  {
    DropNoneFailed(s, failing);
    RemoveEachFrom(s, failing, 0);
    assert FailedIn(s, failing)[0..] == FailedIn(s, failing);
  }

  /** On a list without duplicates, `list.remove` is a filter. */
  lemma {:induction false} RemoveFirstDistinct<T(!new)>(s: seq<T>, x: T)
    requires Distinct(s)
    ensures RemoveFirst(s, x) == Surviving(s, {x})
    ensures Distinct(RemoveFirst(s, x))
    decreases |s|
  {
    if |s| > 0 {
      if s[0] == x {
        SurvivingNoop(s[1..], {x});
      } else {
        RemoveFirstDistinct(s[1..], x);
      }
    }
  }

  /** Filtering out elements that do not occur changes nothing. */
  lemma {:induction false} SurvivingNoop<T(!new)>(s: seq<T>, failing: set<T>)
    requires forall y :: y in s ==> y !in failing
    ensures Surviving(s, failing) == s
    decreases |s|
  {
    if |s| > 0 {
      SurvivingNoop(s[1..], failing);
      assert s == [s[0]] + s[1..];
    }
  }

  /** Two filters in a row are one filter by the union. */
  lemma {:induction false} SurvivingTwice<T(!new)>(s: seq<T>, a: set<T>, b: set<T>)
    ensures Surviving(Surviving(s, a), b) == Surviving(s, a + b)
    decreases |s|
  {
    if |s| > 0 {
      SurvivingTwice(s[1..], a, b);
      var rest := Surviving(s[1..], a);
      if s[0] !in a {
        assert Surviving(s, a) == [s[0]] + rest;
        assert ([s[0]] + rest)[1..] == rest;
      } else {
        assert Surviving(s, a) == rest;
      }
    }
  }

  /** Only the failing elements that occur in the list matter. */
  lemma {:induction false} SurvivingRelevant<T(!new)>(s: seq<T>, a: set<T>, b: set<T>)
    requires forall y :: y in s ==> (y in a <==> y in b)
    ensures Surviving(s, a) == Surviving(s, b)
    decreases |s|
  {
    if |s| > 0 {
      SurvivingRelevant(s[1..], a, b);
    }
  }

  lemma {:induction false} SurvivingDistinct<T(!new)>(s: seq<T>, failing: set<T>)
    requires Distinct(s)
    ensures Distinct(Surviving(s, failing))
    decreases |s|
  {
    if |s| > 0 {
      SurvivingDistinct(s[1..], failing);
      var rest := Surviving(s[1..], failing);
      if s[0] !in failing {
        assert Surviving(s, failing) == [s[0]] + rest;
        assert ([s[0]] + rest)[1..] == rest;
      } else {
        assert Surviving(s, failing) == rest;
      }
    }
  }

  /** On a list without duplicates, removing each of `xs` in turn removes
      exactly the elements of `xs`: only those entries go. */
  lemma {:induction false} RemoveEachDistinct<T(!new)>(s: seq<T>, xs: seq<T>)
    requires Distinct(s)
    ensures RemoveEach(s, xs) == Surviving(s, Elems(xs))
    decreases |xs|
  {
    if |xs| == 0 {
      SurvivingNoop(s, {});
    } else {
      RemoveFirstDistinct(s, xs[0]);
      RemoveEachDistinct(RemoveFirst(s, xs[0]), xs[1..]);
      SurvivingTwice(s, {xs[0]}, Elems(xs[1..]));
    }
  }

  /** In a list without duplicates, an element does not occur before its
      own position. */
  lemma {:induction false} DistinctNotBefore<T(!new)>(s: seq<T>, i: nat)
    requires Distinct(s) && i < |s|
    ensures s[i] !in s[..i]
    decreases |s|
  {
    if i > 0 {
      DistinctNotBefore(s[1..], i - 1);
      assert s[..i] == [s[0]] + s[1..][..i - 1];
      assert s[i] == s[1..][i - 1];
    }
  }

  /** Appending an element that is not yet present keeps a list free of
      duplicates. */
  lemma {:induction false} DistinctSnoc<T(!new)>(s: seq<T>, x: T)
    requires Distinct(s) && x !in s
    ensures Distinct(s + [x])
    decreases |s|
  {
    if |s| == 0 {
      assert s + [x] == [x];
    } else {
      assert (s + [x])[1..] == s[1..] + [x];
      DistinctSnoc(s[1..], x);
    }
  }

  /** How many symbols of a watch-list pass are attempted when the running
      flag read before symbol i is flags[i]: the pass stops at the first
      false reading. */
  function StopIndex(flags: seq<bool>): (k: nat)
    ensures k <= |flags|
    ensures forall i :: 0 <= i < k ==> flags[i]
    ensures k < |flags| ==> !flags[k]
  {
    if |flags| == 0 || !flags[0] then 0 else 1 + StopIndex(flags[1..])
  }

  /** The only index that is preceded by true readings and sits on a false
      reading (or at the end) is the stop index. */
  lemma StopIndexUnique(flags: seq<bool>, i: nat)
    requires i <= |flags|
    requires forall j :: 0 <= j < i ==> flags[j]
    requires i < |flags| ==> !flags[i]
    ensures i == StopIndex(flags)
  {
    var k := StopIndex(flags);
    assert !(k < i) && !(i < k);
  }

  /** `part / whole * 100`, and 0 when `whole` is 0: the success rates the
      status reports compute. */
  function Percent(part: nat, whole: nat): (r: real)
    requires part <= whole
    ensures whole == 0 ==> r == 0.0
    ensures whole > 0 ==> r * whole as real == 100.0 * part as real
    ensures 0.0 <= r <= 100.0
  {
    if whole > 0 then (part as real / whole as real) * 100.0 else 0.0
  }

  /** The list element with the first failing send sits at this index (or
      the index is the length when no send fails): sending in order stops
      there when a failed send raises out of the loop. */
  function FirstFailing<T(==,!new)>(s: seq<T>, failing: set<T>): (k: nat)
    ensures k <= |s|
    ensures forall i :: 0 <= i < k ==> s[i] !in failing
    ensures k < |s| ==> s[k] in failing
  {
    if |s| == 0 || s[0] in failing then 0 else 1 + FirstFailing(s[1..], failing)
  }

  /** The (k+1)-th failing element is still present once the first k
      failing elements have been removed. */
  lemma {:induction false} NextFailedPresent<T(!new)>(s: seq<T>, failing: set<T>, k: nat)
    requires k < |FailedIn(s, failing)|
    ensures FailedIn(s, failing)[k] in DropFirstFailed(s, failing, k)
    decreases |s|
  {
    if s[0] in failing {
      if k > 0 {
        NextFailedPresent(s[1..], failing, k - 1);
      } else {
        DropNoneFailed(s, failing);
      }
    } else {
      NextFailedPresent(s[1..], failing, k);
    }
  }

  /** Removing the first k failing elements one by one. */
  lemma {:induction false} RemoveEachPrefix<T(!new)>(s: seq<T>, failing: set<T>, k: nat)
    requires k <= |FailedIn(s, failing)|
    ensures RemoveEach(s, FailedIn(s, failing)[..k]) == DropFirstFailed(s, failing, k)
    decreases k
  {
    var d := FailedIn(s, failing);
    if k == 0 {
      DropNoneFailed(s, failing);
    } else {
      var x, before := d[k - 1], d[..k - 1];
      assert d[..k] == before + [x];
      calc {
        RemoveEach(s, d[..k]);
        RemoveEach(s, before + [x]);
        { RemoveEachSnoc(s, before, x); }
        RemoveFirst(RemoveEach(s, before), x);
        { RemoveEachPrefix(s, failing, k - 1); }
        RemoveFirst(DropFirstFailed(s, failing, k - 1), x);
        { DropNextFailed(s, failing, k - 1); }
        DropFirstFailed(s, failing, k);
      }
    }
  }

  /** `list.remove` once more at the end of a sequence of removals. */
  lemma {:induction false} RemoveEachSnoc<T(!new)>(s: seq<T>, xs: seq<T>, x: T)
    ensures RemoveEach(s, xs + [x]) == RemoveFirst(RemoveEach(s, xs), x)
    decreases |xs|
  {
    if |xs| == 0 {
      assert xs + [x] == [x];
      assert [x][1..] == [];
    } else {
      assert (xs + [x])[0] == xs[0];
      assert (xs + [x])[1..] == xs[1..] + [x];
      RemoveEachSnoc(RemoveFirst(s, xs[0]), xs[1..], x);
    }
  }

  /** The failed elements of a list without duplicates have none either. */
  lemma {:induction false} FailedInDistinct<T(!new)>(s: seq<T>, failing: set<T>)
    requires Distinct(s)
    ensures Distinct(FailedIn(s, failing))
    decreases |s|
  {
    if |s| > 0 {
      FailedInDistinct(s[1..], failing);
      var rest := FailedIn(s[1..], failing);
      if s[0] in failing {
        assert FailedIn(s, failing) == [s[0]] + rest;
        assert ([s[0]] + rest)[1..] == rest;
      } else {
        assert FailedIn(s, failing) == rest;
      }
    }
  }

  /** The collecting loop of the broadcasts: each element whose send fails
      is appended to the `disconnected` list, in list order. */
  method CollectFailed<T(==,!new)>(s: seq<T>, failing: set<T>) returns (disconnected: seq<T>)
    ensures disconnected == FailedIn(s, failing)
  {
    disconnected := [];
    var i := 0;
    while i < |s|
      invariant 0 <= i <= |s|
      invariant disconnected == FailedIn(s[..i], failing)
    {
      FailedInSnoc(s[..i], s[i], failing);
      assert s[..i + 1] == s[..i] + [s[i]];
      if s[i] in failing {
        disconnected := disconnected + [s[i]];
      }
      i := i + 1;
    }
    assert s[..i] == s;
  }

  /** One more `list.remove` in a left-to-right removal loop. */
  lemma RemoveEachStep<T(!new)>(s: seq<T>, xs: seq<T>, k: nat)
    requires k < |xs|
    ensures RemoveEach(s, xs[..k + 1]) == RemoveFirst(RemoveEach(s, xs[..k]), xs[k])
  {
    assert xs[..k + 1] == xs[..k] + [xs[k]];
    RemoveEachSnoc(s, xs[..k], xs[k]);
  }

  /** Removing the first occurrence of an element that the front part of a
      list lacks takes out the occurrence right after that part. */
  lemma {:induction false} RemoveFirstAfter<T(!new)>(a: seq<T>, x: T, b: seq<T>)
    requires x !in a
    ensures RemoveFirst(a + ([x] + b), x) == a + b
    decreases |a|
  {
    if |a| == 0 {
      assert a + ([x] + b) == [x] + b;
      assert ([x] + b)[1..] == b;
    } else {
      assert (a + ([x] + b))[0] == a[0];
      assert (a + ([x] + b))[1..] == a[1..] + ([x] + b);
      RemoveFirstAfter(a[1..], x, b);
      assert a + b == [a[0]] + (a[1..] + b);
    }
  }

  /** `RemoveFirst` of an element appended to a list that lacked it undoes
      the append. */
  lemma RemoveFirstAppended<T(!new)>(s: seq<T>, x: T)
    requires x !in s
    ensures RemoveFirst(s + [x], x) == s
  {
    RemoveFirstAfter(s, x, []);
    assert [x] + [] == [x] && s + [] == s;
  }

  /** Updating a key twice keeps only the second value. */
  lemma MapUpdateTwice<K, V>(m: map<K, V>, k: K, a: V, b: V)
    ensures m[k := a][k := b] == m[k := b]
  {
  }

  /** One text frame handed to a connection. */
  datatype Delivery = Delivery(to: ConnId, text: string)

  /** The relay loops of the chat endpoints: `text` is sent to each
      recipient in order; the first failed send raises out of the loop, so
      the recipients after it get nothing. `failedAt` is the recipient whose
      send raised, if any. */
  method SendUntilFailure(recipients: seq<ConnId>, text: string, failing: set<ConnId>)
    returns (deliveries: seq<Delivery>, failedAt: Option<ConnId>)
    ensures |deliveries| == FirstFailing(recipients, failing)
    ensures forall i :: 0 <= i < |deliveries| ==> deliveries[i] == Delivery(recipients[i], text)
    ensures failedAt.None? <==> |deliveries| == |recipients|
    ensures failedAt.Some? ==> failedAt.value == recipients[|deliveries|] && failedAt.value in failing
  {
    deliveries := [];
    var i := 0;
    while i < |recipients|
      invariant 0 <= i <= |recipients| && |deliveries| == i
      invariant forall j :: 0 <= j < i ==> recipients[j] !in failing
      invariant forall j :: 0 <= j < i ==> deliveries[j] == Delivery(recipients[j], text)
    {
      if recipients[i] in failing {
        FirstFailingUnique(recipients, failing, i);
        return deliveries, Some(recipients[i]);
      }
      deliveries := deliveries + [Delivery(recipients[i], text)];
      i := i + 1;
    }
    FirstFailingUnique(recipients, failing, i);
    return deliveries, None;
  }

  lemma FirstFailingUnique<T(!new)>(s: seq<T>, failing: set<T>, i: nat)
    requires i <= |s|
    requires forall j :: 0 <= j < i ==> s[j] !in failing
    requires i < |s| ==> s[i] in failing
    ensures i == FirstFailing(s, failing)
  {
    var k := FirstFailing(s, failing);
    assert !(k < i) && !(i < k);
  }

  /** A failing member stops every relay over a list that holds it: the
      relay raises at it or at an earlier failing member. */
  lemma {:induction false} FailingMemberCutsRelay<T(!new)>(s: seq<T>, failing: set<T>, c: T)
    requires c in s && c in failing
    ensures FirstFailing(s, failing) < |s|
    decreases |s|
  {
    if s[0] != c {
      assert c in s[1..];
      FailingMemberCutsRelay(s[1..], failing, c);
    }
  }

  /** What one chat session sends: `log[k]` holds the sends made for
      `messages[k]`, each a verbatim copy to the next member of `room`, cut
      at the first member whose send fails under `failing[k]`. Every
      message before the last one logged reached the whole room. A session
      that stopped on a raising send has logged a cut last entry, and
      `failedAt` is the member that raised; otherwise every message was
      relayed in full. */
  predicate RelayLog(room: seq<ConnId>, messages: seq<string>, failing: seq<set<ConnId>>,
                     log: seq<seq<Delivery>>, failedAt: Option<ConnId>)
    requires |failing| == |messages|
  {
    && |log| <= |messages|
    && (forall k :: 0 <= k < |log| ==> |log[k]| == FirstFailing(room, failing[k]))
    && (forall k, j :: 0 <= k < |log| && 0 <= j < |log[k]| ==> log[k][j] == Delivery(room[j], messages[k]))
    && (failedAt.None? ==> |log| == |messages| && forall k :: 0 <= k < |log| ==> |log[k]| == |room|)
    && (failedAt.Some? ==>
          && 0 < |log|
          && (forall k :: 0 <= k < |log| - 1 ==> |log[k]| == |room|)
          && |log[|log| - 1]| < |room|
          && failedAt.value == room[|log[|log| - 1]|]
          && failedAt.value in failing[|log| - 1])
  }

  /** The receive-and-relay loop of the chat endpoints, over a list that no
      other session changes meanwhile: each received message is relayed
      with `SendUntilFailure`, and the first raising send ends the loop. */
  method RelayEach(room: seq<ConnId>, messages: seq<string>, failing: seq<set<ConnId>>)
    returns (log: seq<seq<Delivery>>, failedAt: Option<ConnId>)
    requires |failing| == |messages|
    ensures RelayLog(room, messages, failing, log, failedAt)
    ensures failedAt.Some? ==> failedAt.value in room
  {
    log, failedAt := [], None;
    var i := 0;
    while i < |messages|
      invariant 0 <= i <= |messages| && |log| == i
      invariant forall k :: 0 <= k < i ==> |log[k]| == |room| == FirstFailing(room, failing[k])
      invariant forall k, j :: 0 <= k < i && 0 <= j < |log[k]| ==> log[k][j] == Delivery(room[j], messages[k])
    {
      var sent, f := SendUntilFailure(room, messages[i], failing[i]);
      log := log + [sent];
      if f.Some? {
        return log, f;
      }
      i := i + 1;
    }
  }
}
