/** The order in which due messages are handed out: by time, then by id. */
module DueOrder {
  import opened FiniteSets

  datatype Id = Id(text: string)

  /** String comparison, character by character. */
  predicate Less(a: string, b: string) {
    b != [] && (a == [] || a[0] < b[0] || (a[0] == b[0] && Less(a[1..], b[1..])))
  }

  lemma {:induction false} LessTotal(a: string, b: string)
    ensures Less(a, b) || Less(b, a) || a == b
    ensures !(Less(a, b) && Less(b, a)) && !(Less(a, b) && a == b)
  {
    if a != [] && b != [] && a[0] == b[0] {
      LessTotal(a[1..], b[1..]);
      assert a == [a[0]] + a[1..] && b == [b[0]] + b[1..];
    }
  }

  lemma {:induction false} LessTransitive(a: string, b: string, c: string)
    requires Less(a, b) && Less(b, c)
    ensures Less(a, c)
  {
    if a != [] && a[0] == b[0] && b[0] == c[0] {
      LessTransitive(a[1..], b[1..], c[1..]);
    }
  }

  predicate Before(s: int, a: Id, t: int, b: Id) {
    s < t || (s == t && Less(a.text, b.text))
  }

  lemma BeforeTotal(s: int, a: Id, t: int, b: Id)
    requires a != b
    ensures Before(s, a, t, b) <==> !Before(t, b, s, a)
  {
    LessTotal(a.text, b.text);
  }

  lemma BeforeTransitive(s: int, a: Id, t: int, b: Id, u: int, c: Id)
    requires Before(s, a, t, b) && Before(t, b, u, c)
    ensures Before(s, a, u, c)
  {
    if s == t && t == u {
      LessTransitive(a.text, b.text, c.text);
    }
  }

  type Scores = map<Id, int>

  predicate Ordered(scores: Scores, ids: seq<Id>) {
    && (forall i :: 0 <= i < |ids| ==> ids[i] in scores)
    && (forall i, j :: 0 <= i < j < |ids| ==> Before(scores[ids[i]], ids[i], scores[ids[j]], ids[j]))
  }

  /** `ids` are the first `limit` ids, in order, whose score is not in the future. */
  predicate FirstDue(scores: Scores, now: int, limit: int, ids: seq<Id>) {
    && Ordered(scores, ids)
    && |ids| <= limit
    && (forall i :: 0 <= i < |ids| ==> scores[ids[i]] <= now)
    && (ids != [] ==> forall x :: x in scores && scores[x] <= now && x !in ids ==>
          Before(scores[ids[|ids| - 1]], ids[|ids| - 1], scores[x], x))
    && (|ids| < limit ==> forall x :: x in scores && scores[x] <= now ==> x in ids)
  }

  lemma {:induction false} OrderedDistinct(scores: Scores, ids: seq<Id>, i: nat, j: nat)
    requires Ordered(scores, ids) && i < |ids| && j < |ids| && ids[i] == ids[j]
    ensures i == j
  {
    LessTotal(ids[i].text, ids[i].text);
  }

  lemma OrderedAllDistinct(scores: Scores, ids: seq<Id>)
    requires Ordered(scores, ids)
    ensures forall i, j :: 0 <= i < j < |ids| ==> ids[i] != ids[j]
  {
    forall i, j | 0 <= i < j < |ids| ensures ids[i] != ids[j] {
      LessTotal(ids[i].text, ids[i].text);
    }
  }

  /** The answer is unique: any two correct answers agree. */
  lemma {:induction false} FirstDueUnique(scores: Scores, now: int, limit: int, a: seq<Id>, b: seq<Id>, n: nat)
    requires FirstDue(scores, now, limit, a) && FirstDue(scores, now, limit, b) && n <= |a|
    ensures n <= |b| && a[..n] == b[..n]
  {
    if n > 0 {
      FirstDueUnique(scores, now, limit, a, b, n - 1);
      var x := a[n - 1];
      NextIn(scores, now, limit, a, b, n - 1);
      var y := b[n - 1];
      if x != y {
        BeforeTotal(scores[x], x, scores[y], y);
        if Before(scores[x], x, scores[y], y) {
          ComesNoLater(scores, now, limit, a, b, n - 1);
        } else {
          NextIn(scores, now, limit, b, a, n - 1);
          ComesNoLater(scores, now, limit, b, a, n - 1);
        }
      }
      assert a[..n] == a[..n - 1] + [x] && b[..n] == b[..n - 1] + [y];
    }
  }

  lemma NextIn(scores: Scores, now: int, limit: int, a: seq<Id>, b: seq<Id>, n: nat)
    requires FirstDue(scores, now, limit, a) && FirstDue(scores, now, limit, b)
    requires n < |a| && n <= |b| && a[..n] == b[..n]
    ensures n < |b|
  {
    if n == |b| {
      assert a[n] in b;
      var i :| 0 <= i < |b| && b[i] == a[n];
      assert a[i] == a[..n][i] == b[..n][i];
      OrderedDistinct(scores, a, i, n);
    }
  }

  /** The n-th of `a` occurs in `b` at or after position n, so the n-th of `b` does not come later than it. */
  lemma ComesNoLater(scores: Scores, now: int, limit: int, a: seq<Id>, b: seq<Id>, n: nat)
    requires FirstDue(scores, now, limit, a) && FirstDue(scores, now, limit, b)
    requires n < |a| && n < |b| && a[..n] == b[..n] && a[n] != b[n]
    ensures Before(scores[b[n]], b[n], scores[a[n]], a[n])
  {
    var x, last := a[n], b[|b| - 1];
    if x in b {
      var i :| 0 <= i < |b| && b[i] == x;
      if i < n {
        assert a[i] == a[..n][i] == b[..n][i];
        OrderedDistinct(scores, a, i, n);
      }
    } else if n < |b| - 1 {
      BeforeTransitive(scores[b[n]], b[n], scores[last], last, scores[x], x);
    }
  }

  // ----- Selecting: collect what is due, sort it, cut it to the limit -----

  method Insert(scores: Scores, ids: seq<Id>, x: Id) returns (r: seq<Id>)
    requires Ordered(scores, ids) && x in scores && x !in ids
    ensures Ordered(scores, r) && forall y :: y in r <==> y in ids || y == x
  {
    var i := 0;
    while i < |ids| && Before(scores[ids[i]], ids[i], scores[x], x)
      invariant 0 <= i <= |ids|
      invariant forall j :: 0 <= j < i ==> Before(scores[ids[j]], ids[j], scores[x], x)
    {
      i := i + 1;
    }
    forall j | i <= j < |ids| ensures Before(scores[x], x, scores[ids[j]], ids[j]) {
      BeforeTotal(scores[ids[i]], ids[i], scores[x], x);
      if j > i {
        BeforeTransitive(scores[x], x, scores[ids[i]], ids[i], scores[ids[j]], ids[j]);
      }
    }
    r := ids[..i] + [x] + ids[i..];
    assert ids == ids[..i] + ids[i..];
  }

  method SelectDue(scores: Scores, now: int, limit: int) returns (ids: seq<Id>)
    requires limit > 0
    ensures FirstDue(scores, now, limit, ids)
  {
    var due: seq<Id> := [];
    var todo := scores.Keys;
    while todo != {}
      invariant todo <= scores.Keys
      invariant Ordered(scores, due)
      invariant forall x :: x in due <==> x in scores && x !in todo && scores[x] <= now
      decreases todo
    {
      var x := PickOne(todo);
      if scores[x] <= now {
        due := Insert(scores, due, x);
      }
      todo := todo - {x};
    }
    ids := if |due| > limit then due[..limit] else due;
    CutIsFirst(scores, now, limit, due, ids);
  }

  /** The head of the sorted due ids is the answer. */
  lemma CutIsFirst(scores: Scores, now: int, limit: int, due: seq<Id>, ids: seq<Id>)
    requires limit > 0 && Ordered(scores, due)
    requires forall x :: x in due <==> x in scores && scores[x] <= now
    requires ids == if |due| > limit then due[..limit] else due
    ensures FirstDue(scores, now, limit, ids)
  {
    assert forall i :: 0 <= i < |ids| ==> ids[i] == due[i] && due[i] in due;
    if ids != [] {
      var last := |ids| - 1;
      forall x | x in scores && scores[x] <= now && x !in ids
        ensures Before(scores[ids[last]], ids[last], scores[x], x)
      {
        assert x in due;
        var j :| 0 <= j < |due| && due[j] == x;
      }
    }
  }
}
