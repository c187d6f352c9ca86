/** State-store keys as paths: how a list's prefix is read. */
module StoreKeys {
  predicate IsSegment(s: string) { s != "" && '/' !in s }

  ghost predicate Segmented(parts: seq<string>) { forall i :: 0 <= i < |parts| ==> IsSegment(parts[i]) }

  function Slash(s: string): (i: nat)
    ensures i <= |s| && '/' !in s[..i] && (i < |s| ==> s[i] == '/')
  {
    if s == "" || s[0] == '/' then 0 else
      var i := 1 + Slash(s[1..]);
      assert s[..i] == [s[0]] + s[1..][..i - 1];
      i
  }

  /** The nonempty parts between slashes. */
  function Segments(s: string): (parts: seq<string>)
    ensures Segmented(parts)
    decreases |s|
  {
    var i := Slash(s);
    (if i == 0 then [] else [s[..i]]) + if i == |s| then [] else Segments(s[i + 1..])
  }

  function Join(parts: seq<string>): string {
    if parts == [] then "" else if |parts| == 1 then parts[0] else parts[0] + "/" + Join(parts[1..])
  }

  function Normalize(prefix: string): string { Join(Segments(prefix)) }

  /** The check a list makes of each key against its normalized prefix. */
  predicate InNamespace(key: string, prefix: string) {
    prefix == "" || key == prefix || prefix + "/" <= key
  }

  lemma {:induction false} SlashAfter(part: string, rest: string)
    requires '/' !in part && (rest == "" || rest[0] == '/')
    ensures Slash(part + rest) == |part|
  {
    if part == "" {
      assert part + rest == rest;
    } else {
      assert (part + rest)[1..] == part[1..] + rest;
      SlashAfter(part[1..], rest);
    }
  }

  /** Two paths whose first parts end in the same place begin with the same part. */
  lemma FirstPart(part: string, rest: string, part': string, rest': string)
    requires IsSegment(part) && (rest == "" || rest[0] == '/') && IsSegment(part') && (rest' == "" || rest'[0] == '/')
    requires part + rest == part' + rest'
    ensures part == part' && rest == rest'
  {
    SlashAfter(part, rest);
    SlashAfter(part', rest');
    assert part == (part + rest)[..|part|] && part' == (part' + rest')[..|part'|];
    assert rest == (part + rest)[|part|..] && rest' == (part' + rest')[|part'|..];
  }

  function Tail(parts: seq<string>): string
    requires parts != []
  {
    if |parts| == 1 then "" else "/" + Join(parts[1..])
  }

  lemma Cancel(head: string, x: string, y: string)
    ensures head + x == head + y <==> x == y
    ensures head + x <= head + y <==> x <= y
  {
    assert (head + x)[|head|..] == x && (head + y)[|head|..] == y;
    if head + x <= head + y {
      assert x == (head + y)[..|head + x|][|head|..];
    }
  }

  /** How a path goes on decides both questions once the first parts agree. */
  lemma UnderTail(ps: seq<string>, ks: seq<string>)
    requires |ps| > 1 && |ks| > 1 && ps[0] == ks[0]
    ensures Join(ks) == Join(ps) <==> Join(ks[1..]) == Join(ps[1..])
    ensures Join(ps) + "/" <= Join(ks) <==> Join(ps[1..]) + "/" <= Join(ks[1..])
  {
    var head := ps[0] + "/";
    Cancel(head, Join(ks[1..]), Join(ps[1..]));
    Cancel(head, Join(ps[1..]) + "/", Join(ks[1..]));
    assert Join(ps) + "/" == head + (Join(ps[1..]) + "/");
  }

  lemma HeadTail(parts: seq<string>)
    requires Segmented(parts) && parts != []
    ensures Join(parts) == parts[0] + Tail(parts) && (Tail(parts) == "" <==> |parts| == 1) && (Tail(parts) != "" ==> Tail(parts)[0] == '/')
  {
  }

  lemma SameHead(ps: seq<string>, ks: seq<string>)
    requires Segmented(ps) && Segmented(ks) && ps != [] && ks != [] && Join(ks) == Join(ps)
    ensures ps[0] == ks[0] && (|ps| > 1 <==> |ks| > 1)
  {
    HeadTail(ps);
    HeadTail(ks);
    FirstPart(ps[0], Tail(ps), ks[0], Tail(ks));
  }

  lemma PrefixSplit(x: string, y: string, s: string) returns (rest: string)
    requires x + y <= s
    ensures s == x + (y + rest)
  {
    rest := s[|x + y|..];
    assert s == (x + y) + rest;
  }

  lemma SlashTail(tail: string, rest: string)
    requires tail == "" || tail[0] == '/'
    ensures tail + "/" + rest != "" && (tail + "/" + rest)[0] == '/'
  {
  }

  lemma LongerHead(ps: seq<string>, ks: seq<string>)
    requires Segmented(ps) && Segmented(ks) && ps != [] && ks != [] && Join(ps) + "/" <= Join(ks)
    ensures ps[0] == ks[0] && |ks| > 1
  {
    HeadTail(ps);
    HeadTail(ks);
    assert Join(ps) + "/" == ps[0] + (Tail(ps) + "/");
    var rest := PrefixSplit(ps[0], Tail(ps) + "/", Join(ks));
    SlashTail(Tail(ps), rest);
    FirstPart(ps[0], Tail(ps) + "/" + rest, ks[0], Tail(ks));
  }

  lemma UnderOne(ps: seq<string>, ks: seq<string>)
    requires |ps| == 1 && ks != [] && ps[0] == ks[0] && Segmented(ks)
    ensures Join(ks) == Join(ps) <==> |ks| == 1
    ensures Join(ps) + "/" <= Join(ks) <==> |ks| > 1
  {
    if |ks| > 1 {
      assert Join(ks) == (Join(ps) + "/") + Join(ks[1..]);
    }
  }

  /** A path plus a slash begins another path exactly when its parts are a proper beginning of the other's. */
  lemma {:induction false} UnderIs(ps: seq<string>, ks: seq<string>)
    requires Segmented(ps) && Segmented(ks) && ps != []
    ensures Join(ks) == Join(ps) <==> ks == ps
    ensures Join(ps) + "/" <= Join(ks) <==> ps < ks
  {
    if ks == [] {
      assert Join(ps) == ps[0] + Tail(ps);
    } else {
      if Join(ks) == Join(ps) {
        SameHead(ps, ks);
      } else if Join(ps) + "/" <= Join(ks) {
        LongerHead(ps, ks);
      }
      assert ps == [ps[0]] + ps[1..] && ks == [ks[0]] + ks[1..];
      if ps[0] == ks[0] {
        if |ps| == 1 {
          UnderOne(ps, ks);
        } else if |ks| > 1 {
          UnderTail(ps, ks);
          UnderIs(ps[1..], ks[1..]);
          Parts(ps, ks);
        }
      }
    }
  }

  lemma Parts(ps: seq<string>, ks: seq<string>)
    requires |ps| > 1 && |ks| > 1 && ps[0] == ks[0]
    ensures (ks == ps <==> ks[1..] == ps[1..]) && (ps < ks <==> ps[1..] < ks[1..])
  {
    assert ps == [ps[0]] + ps[1..] && ks == [ks[0]] + ks[1..];
    if ps[1..] < ks[1..] {
      assert forall i :: 1 <= i < |ps| ==> ps[i] == ps[1..][i - 1] && ks[i] == ks[1..][i - 1];
    }
  }

  /** For a key in normal form, the check is whether the prefix's parts begin the key's: never a sibling. */
  lemma ListedUnder(key: string, prefix: string)
    requires Normalize(key) == key
    ensures InNamespace(key, Normalize(prefix)) <==> Segments(prefix) <= Segments(key)
  {
    var ps, ks := Segments(prefix), Segments(key);
    if ps != [] {
      UnderIs(ps, ks);
      assert Normalize(prefix) != "" by {
        assert |ps[0]| > 0;
      }
    }
  }

  // --- What the segments are ---

  lemma {:induction false} SlashIn(a: string, b: string)
    ensures Slash(a + "/" + b) == Slash(a)
  {
    if a != "" && a[0] != '/' {
      SlashIn(a[1..], b);
      assert (a + "/" + b)[1..] == a[1..] + "/" + b;
    }
  }

  function First(s: string, i: nat): seq<string>
    requires i <= |s|
  {
    if i == 0 then [] else [s[..i]]
  }

  lemma SegmentsStep(s: string, i: nat, rest: string)
    requires i == Slash(s) && (if i == |s| then rest == "" else rest == s[i + 1..])
    ensures Segments(s) == First(s, i) + Segments(rest)
  {
    assert First(s, i) + [] == First(s, i);
  }

  lemma JoinedAt(a: string, b: string, i: nat)
    requires i == Slash(a)
    ensures Slash(a + "/" + b) == i && First(a + "/" + b, i) == First(a, i)
    ensures (a + "/" + b)[i + 1..] == if i == |a| then b else a[i + 1..] + "/" + b
  {
    SlashIn(a, b);
    assert (a + "/" + b)[..i] == a[..i];
  }

  lemma Regroup(x: seq<string>, y: seq<string>, z: seq<string>)
    ensures x + (y + z) == x + y + z && x + [] == x
  {
  }

  lemma {:induction false} SegmentsJoin(a: string, b: string)
    ensures Segments(a + "/" + b) == Segments(a) + Segments(b)
    decreases |a|
  {
    var s, i := a + "/" + b, Slash(a);
    JoinedAt(a, b, i);
    var rest := if i == |a| then "" else a[i + 1..];
    SegmentsStep(a, i, rest);
    if i == |a| {
      SegmentsStep(s, i, b);
      Regroup(First(a, i), [], Segments(b));
    } else {
      SegmentsStep(s, i, rest + "/" + b);
      SegmentsJoin(rest, b);
      Regroup(First(a, i), Segments(rest), Segments(b));
    }
  }

  /** A path's segments are the parts its slashes leave, but for empty ones; so they are all of a normalized path's parts. */
  lemma SegmentsAre(part: string, a: string, b: string)
    ensures IsSegment(part) ==> Segments(part) == [part]
    ensures Segments("") == [] && Segments(a + "/" + b) == Segments(a) + Segments(b)
  {
    SegmentsJoin(a, b);
    if IsSegment(part) {
      SlashAfter(part, "");
      assert part + "" == part && part[..|part|] == part;
    }
  }

  lemma {:induction false} NormalizedParts(parts: seq<string>)
    requires Segmented(parts)
    ensures Segments(Join(parts)) == parts
  {
    if |parts| == 1 {
      SegmentsAre(parts[0], "", "");
    } else if |parts| > 1 {
      SegmentsAre(parts[0], parts[0], Join(parts[1..]));
      NormalizedParts(parts[1..]);
    }
  }
}
