/** The two bounded buffers of the games: the newest-first result histories
    (`list.unshift(x); if (list.length > cap) list.pop();`) and the flight
    path (`list.push(p); if (list.length > cap) list.shift();`). */
module BoundedList {

  /** Insert at the front, then drop the last entry if the list grew past `cap`. */
  function PushFront<T>(s: seq<T>, x: T, cap: nat): (r: seq<T>)
    requires cap >= 1
    ensures |r| == if |s| + 1 > cap then |s| else |s| + 1
    ensures |r| >= 1 && r[0] == x
    ensures r[1..] == s[..|r| - 1]
    ensures |s| <= cap ==> |r| <= cap
  {
    var t := [x] + s;
    if |t| > cap then t[..|t| - 1] else t
  }

  /** Append at the end, then drop the first entry if the list grew past `cap`. */
  function PushBack<T>(s: seq<T>, x: T, cap: nat): (r: seq<T>)
    requires cap >= 1
    ensures |r| == if |s| + 1 > cap then |s| else |s| + 1
    ensures |r| >= 1 && r[|r| - 1] == x
    ensures r[..|r| - 1] == s[|s| + 1 - |r|..]
    ensures |s| <= cap ==> |r| <= cap
  {
    if |s| + 1 > cap then s[1..] + [x] else s + [x]
  }

  function Reverse<T>(xs: seq<T>): (r: seq<T>)
    ensures |r| == |xs|
  {
    if xs == [] then [] else [xs[|xs| - 1]] + Reverse(xs[..|xs| - 1])
  }

  /** The list after `PushFront` of each of `xs`, oldest first. */
  function PushAllFront<T>(s: seq<T>, xs: seq<T>, cap: nat): seq<T>
    requires cap >= 1
  {
    if xs == [] then s else PushFront(PushAllFront(s, xs[..|xs| - 1], cap), xs[|xs| - 1], cap)
  }

  /** The list after `PushBack` of each of `xs`, oldest first. */
  function PushAllBack<T>(s: seq<T>, xs: seq<T>, cap: nat): seq<T>
    requires cap >= 1
  {
    if xs == [] then s else PushBack(PushAllBack(s, xs[..|xs| - 1], cap), xs[|xs| - 1], cap)
  }

  function Min(a: int, b: int): int { if a <= b then a else b }

  /** However many entries are pushed, a history holds the newest `cap` of
      them, newest first, followed by what was there before while room remains. */
  lemma {:induction false} PushAllFrontKeepsNewest<T>(s: seq<T>, xs: seq<T>, cap: nat)
    requires cap >= 1 && |s| <= cap
    ensures PushAllFront(s, xs, cap) == (Reverse(xs) + s)[..Min(|xs| + |s|, cap)]
  {
    if xs != [] {
      var init, last := xs[..|xs| - 1], xs[|xs| - 1];
      PushAllFrontKeepsNewest(s, init, cap);
      var u := Reverse(init) + s;
      var k := Min(|init| + |s|, cap);
      var inner := u[..k];
      assert PushAllFront(s, xs, cap) == PushFront(inner, last, cap);
      assert Reverse(xs) + s == [last] + u;
      var r := PushFront(inner, last, cap);
      var m := Min(|xs| + |s|, cap);
      assert |r| == m;
      forall i | 0 <= i < m
        ensures r[i] == ([last] + u)[..m][i]
      {
        if i > 0 {
          assert r[i] == r[1..][i - 1];
        }
      }
    }
  }

  /** The newest `cap` entries of `t`, in order. */
  function Newest<T>(t: seq<T>, cap: nat): (r: seq<T>)
    ensures |r| == Min(|t|, cap)
  {
    t[|t| - Min(|t|, cap)..]
  }

  /** One step of the path: pushing onto the newest `cap` entries of `u`
      leaves the newest `cap` entries of `u + [x]`. */
  lemma PushBackOfNewest<T>(u: seq<T>, x: T, cap: nat)
    requires cap >= 1
    ensures PushBack(Newest(u, cap), x, cap) == Newest(u + [x], cap)
  {
    var inner := Newest(u, cap);
    if |u| >= cap {
      assert PushBack(inner, x, cap) == inner[1..] + [x];
      assert inner[1..] == u[|u| + 1 - cap..];
    } else {
      assert inner == u;
    }
  }

  /** However many points are appended, the path holds the newest `cap` of
      everything it has seen, in arrival order. */
  lemma {:induction false} PushAllBackKeepsNewest<T>(s: seq<T>, xs: seq<T>, cap: nat)
    requires cap >= 1 && |s| <= cap
    ensures PushAllBack(s, xs, cap) == Newest(s + xs, cap)
  {
    if xs == [] {
      assert s + xs == s;
    } else {
      var init, last := xs[..|xs| - 1], xs[|xs| - 1];
      calc {
        PushAllBack(s, xs, cap);
        PushBack(PushAllBack(s, init, cap), last, cap);
        { PushAllBackKeepsNewest(s, init, cap); }
        PushBack(Newest(s + init, cap), last, cap);
        { PushBackOfNewest(s + init, last, cap); }
        Newest((s + init) + [last], cap);
        { assert (s + init) + [last] == s + xs; }
        Newest(s + xs, cap);
      }
    }
  }
}
