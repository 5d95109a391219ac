/** String helpers with the semantics of the JavaScript string methods the
    application uses (`startsWith`, `includes`, `split`, `join`, `trim`,
    `toLowerCase`, `slice`), stated over `seq<char>`. */
module Text {

  datatype Option<+T> = None | Some(value: T)

  /** `s.startsWith(p)` */
  predicate StartsWith(s: string, p: string) {
    |p| <= |s| && s[..|p|] == p
  }

  /** `s.includes(sub)`: some suffix of `s` starts with `sub`. */
  predicate Contains(s: string, sub: string)
    decreases |s|
  {
    StartsWith(s, sub) || (s != [] && Contains(s[1..], sub))
  }

  /** A string contains every string it is built around. */
  lemma {:induction false} ContainsInside(a: string, sub: string, b: string)
    ensures Contains(a + sub + b, sub)
    decreases |a|
  {
    if a == [] {
      assert a + sub + b == sub + b;
      assert (sub + b)[..|sub|] == sub;
    } else {
      assert (a + sub + b)[1..] == a[1..] + sub + b;
      ContainsInside(a[1..], sub, b);
    }
  }

  /** What a string contains, any extension of it in front contains too. */
  lemma {:induction false} ContainsAfter(p: string, t: string, sub: string)
    requires Contains(t, sub)
    ensures Contains(p + t, sub)
    decreases |p|
  {
    if p != [] {
      assert (p + t)[1..] == p[1..] + t;
      ContainsAfter(p[1..], t, sub);
    } else {
      assert p + t == t;
    }
  }

  /** A join contains each of its pieces. */
  lemma {:induction false} JoinContains(parts: seq<string>, sep: string, k: int)
    requires 0 <= k < |parts|
    ensures Contains(Join(parts, sep), parts[k])
    decreases |parts|
  {
    if |parts| == 1 {
      ContainsInside("", parts[0], "");
      assert "" + parts[0] + "" == parts[0];
    } else if k == 0 {
      var rest := sep + Join(parts[1..], sep);
      ContainsInside("", parts[0], rest);
      assert "" + parts[0] + rest == parts[0] + sep + Join(parts[1..], sep);
    } else {
      JoinContains(parts[1..], sep, k - 1);
      ContainsAfter(parts[0] + sep, Join(parts[1..], sep), parts[k]);
    }
  }

  /** JavaScript truthiness of an optional string: present and non-empty. */
  predicate Truthy(s: Option<string>) {
    s.Some? && s.value != ""
  }

  // ---------------------------------------------------------------------
  // split / join

  /** `s.split(sep)` for a non-empty literal separator: the string is scanned
      from left to right and every occurrence of `sep` that does not overlap
      an earlier one ends a piece. */
  function Split(s: string, sep: string): (r: seq<string>)
    requires sep != ""
    ensures |r| >= 1
    decreases |s|
  {
    if StartsWith(s, sep) then [""] + Split(s[|sep|..], sep)
    else if s == [] then [""]
    else
      var t := Split(s[1..], sep);
      [[s[0]] + t[0]] + t[1..]
  }

  /** `parts.join(sep)` */
  function Join(parts: seq<string>, sep: string): string
    decreases |parts|
  {
    if |parts| == 0 then ""
    else if |parts| == 1 then parts[0]
    else parts[0] + sep + Join(parts[1..], sep)
  }

  /** A join starts with its first part. */
  lemma JoinStarts(parts: seq<string>, sep: string)
    requires |parts| > 0
    ensures StartsWith(Join(parts, sep), parts[0])
  {
    if |parts| > 1 {
      assert Join(parts, sep) == parts[0] + (sep + Join(parts[1..], sep));
      assert Join(parts, sep)[..|parts[0]|] == parts[0];
    }
  }

  /** In `h + t`, where `c` does not occur in `h` and opens `t`, the first
      `c` is at `|h|`. */
  lemma FirstAt(h: string, t: string, c: char)
    requires c !in h && |t| > 0 && t[0] == c
    ensures (h + t)[|h|] == c && forall i :: 0 <= i < |h| ==> (h + t)[i] != c
  {
    forall i | 0 <= i < |h| ensures (h + t)[i] != c {
      assert (h + t)[i] == h[i];
    }
  }

  /** A string made of a head without `c` and a tail opening with `c`
      determines its head. */
  lemma HeadInjective(h1: string, t1: string, h2: string, t2: string, c: char)
    requires c !in h1 && c !in h2 && |t1| > 0 && t1[0] == c && |t2| > 0 && t2[0] == c
    requires h1 + t1 == h2 + t2
    ensures h1 == h2
  {
    FirstAt(h1, t1, c);
    FirstAt(h2, t2, c);
    assert |h1| == |h2|;
    assert h1 == (h1 + t1)[..|h1|];
    assert h2 == (h2 + t2)[..|h2|];
  }

  /** The same holds behind a common prefix. */
  lemma PrefixedHeadInjective(p: string, h1: string, t1: string, h2: string, t2: string, c: char)
    requires c !in h1 && c !in h2 && |t1| > 0 && t1[0] == c && |t2| > 0 && t2[0] == c
    requires p + (h1 + t1) == p + (h2 + t2)
    ensures h1 == h2
  {
    assert (p + (h1 + t1))[|p|..] == h1 + t1;
    assert (p + (h2 + t2))[|p|..] == h2 + t2;
    HeadInjective(h1, t1, h2, t2, c);
  }

  /** The last element of a non-empty sequence. */
  function Last<T>(s: seq<T>): T
    requires |s| > 0
  {
    s[|s| - 1]
  }

  /** All elements but the last (what `Array.prototype.pop` leaves behind). */
  function DropLast<T>(s: seq<T>): seq<T>
    requires |s| > 0
  {
    s[..|s| - 1]
  }

  /** Concatenation of a sequence of strings (`parts.join('')`). */
  function Concat(parts: seq<string>): string
    decreases |parts|
  {
    if parts == [] then "" else parts[0] + Concat(parts[1..])
  }

  lemma {:induction false} ConcatAppend(parts: seq<string>, x: string)
    ensures Concat(parts + [x]) == Concat(parts) + x
    decreases |parts|
  {
    if parts == [] {
      assert parts + [x] == [x];
    } else {
      assert (parts + [x])[1..] == parts[1..] + [x];
      ConcatAppend(parts[1..], x);
    }
  }

  /** The present results of `f` over `xs`, in order: `xs.map(f)` with the
      absent results dropped. */
  function Collect(xs: seq<string>, f: string -> Option<string>): (r: seq<string>)
    ensures |r| <= |xs|
    decreases |xs|
  {
    if xs == [] then []
    else Collect(DropLast(xs), f) + (if f(Last(xs)).Some? then [f(Last(xs)).value] else [])
  }

  /** Collecting over two consecutive runs is collecting over each in turn. */
  lemma {:induction false} CollectAppend(a: seq<string>, b: seq<string>, f: string -> Option<string>)
    ensures Collect(a + b, f) == Collect(a, f) + Collect(b, f)
    decreases |b|
  {
    if b == [] {
      assert a + b == a;
    } else {
      CollectAppend(a, DropLast(b), f);
      assert DropLast(a + b) == a + DropLast(b);
      assert Last(a + b) == Last(b);
    }
  }

  /** Collecting over one more element. */
  lemma CollectSnoc(xs: seq<string>, x: string, f: string -> Option<string>)
    ensures Collect(xs + [x], f) == Collect(xs, f) + (if f(x).Some? then [f(x).value] else [])
  {
    assert DropLast(xs + [x]) == xs;
    assert Last(xs + [x]) == x;
  }

  /** One step of a loop that collects the present results of `f`. */
  lemma CollectStep(xs: seq<string>, i: nat, f: string -> Option<string>)
    requires i < |xs|
    ensures Collect(xs[..i + 1], f) == Collect(xs[..i], f) + (if f(xs[i]).Some? then [f(xs[i]).value] else [])
  {
    assert xs[..i + 1] == xs[..i] + [xs[i]];
    CollectSnoc(xs[..i], xs[i], f);
  }

  /** Every collected element is a present result of `f` on some element. */
  lemma {:induction false} CollectSound(xs: seq<string>, f: string -> Option<string>)
    ensures forall t :: t in Collect(xs, f) ==> exists x :: x in xs && f(x) == Some(t)
    decreases |xs|
  {
    if xs != [] {
      CollectSound(DropLast(xs), f);
      assert forall x :: x in DropLast(xs) ==> x in xs;
    }
  }

  /** The concatenation of one more chunk. */
  lemma ConcatPrefix(parts: seq<string>, i: nat)
    requires i < |parts|
    ensures Concat(parts[..i + 1]) == Concat(parts[..i]) + parts[i]
  {
    assert parts[..i + 1] == parts[..i] + [parts[i]];
    ConcatAppend(parts[..i], parts[i]);
  }

  /** The concatenation of two runs of parts. */
  lemma {:induction false} ConcatSplice(a: seq<string>, b: seq<string>)
    ensures Concat(a + b) == Concat(a) + Concat(b)
    decreases |a|
  {
    if a == [] {
      assert a + b == b;
    } else {
      assert (a + b)[1..] == a[1..] + b;
      ConcatSplice(a[1..], b);
    }
  }

  /** The last present result of `f` over `xs` (what a loop that overwrites
      a variable whenever `f` has a result ends with). */
  function LastOf(xs: seq<string>, f: string -> Option<string>): Option<string>
    decreases |xs|
  {
    if xs == [] then None
    else if f(Last(xs)).Some? then f(Last(xs))
    else LastOf(DropLast(xs), f)
  }

  /** `LastOf` is absent exactly when `f` has no result on any element. */
  lemma {:induction false} LastOfAbsent(xs: seq<string>, f: string -> Option<string>)
    ensures LastOf(xs, f).None? <==> forall k :: 0 <= k < |xs| ==> f(xs[k]).None?
    decreases |xs|
  {
    if xs != [] {
      var init := DropLast(xs);
      LastOfAbsent(init, f);
      if f(Last(xs)).None? {
        assert forall k :: 0 <= k < |init| ==> init[k] == xs[k];
      }
    }
  }

  /** When present, `LastOf` is the result of `f` on some element after
      which `f` has no result: the last one wins. */
  lemma {:induction false} LastOfIsLast(xs: seq<string>, f: string -> Option<string>)
    ensures LastOf(xs, f).Some? ==>
      exists k :: 0 <= k < |xs| && f(xs[k]) == LastOf(xs, f) &&
        forall j :: k < j < |xs| ==> f(xs[j]).None?
    decreases |xs|
  {
    if xs != [] {
      var n := |xs| - 1;
      if f(xs[n]).None? {
        var init := DropLast(xs);
        LastOfIsLast(init, f);
        if LastOf(init, f).Some? {
          var k :| 0 <= k < |init| && f(init[k]) == LastOf(init, f) &&
            forall j :: k < j < |init| ==> f(init[j]).None?;
          assert init[k] == xs[k];
          forall j | k < j < |xs|
            ensures f(xs[j]).None?
          {
            if j < n {
              assert init[j] == xs[j];
            }
          }
        }
      } else {
        assert f(xs[n]) == LastOf(xs, f);
      }
    }
  }

  /** One step of a loop that overwrites a variable with each present
      result of `f`. */
  lemma LastOfStep(xs: seq<string>, i: nat, f: string -> Option<string>)
    requires i < |xs|
    ensures LastOf(xs[..i + 1], f) == if f(xs[i]).Some? then f(xs[i]) else LastOf(xs[..i], f)
  {
    assert DropLast(xs[..i + 1]) == xs[..i];
    assert Last(xs[..i + 1]) == xs[i];
  }

  /** `LastOf` over two consecutive runs: the second run's, if it has one. */
  lemma {:induction false} LastOfAppend(a: seq<string>, b: seq<string>, f: string -> Option<string>)
    ensures LastOf(a + b, f) == if LastOf(b, f).Some? then LastOf(b, f) else LastOf(a, f)
    decreases |b|
  {
    if b == [] {
      assert a + b == a;
    } else {
      LastOfAppend(a, DropLast(b), f);
      assert DropLast(a + b) == a + DropLast(b);
      assert Last(a + b) == Last(b);
    }
  }

  /** An element on which `f` has no result can be removed without changing
      `LastOf`. */
  lemma LastOfSkips(xs: seq<string>, x: string, ys: seq<string>, f: string -> Option<string>)
    requires f(x).None?
    ensures LastOf(xs + [x] + ys, f) == LastOf(xs + ys, f)
  {
    LastOfAppend(xs + [x], ys, f);
    LastOfAppend(xs, ys, f);
    assert DropLast(xs + [x]) == xs;
  }

  /** A present `LastOf` is a result of `f` on one of the elements. */
  lemma {:induction false} LastOfSound(xs: seq<string>, f: string -> Option<string>)
    ensures LastOf(xs, f).Some? ==> exists x :: x in xs && f(x) == LastOf(xs, f)
    decreases |xs|
  {
    if xs != [] && f(Last(xs)).None? {
      LastOfSound(DropLast(xs), f);
      assert forall x :: x in DropLast(xs) ==> x in xs;
    }
  }

  /** Putting a character in front of the first piece puts it in front of
      the join. */
  lemma JoinConsHead(ch: char, t: seq<string>, sep: string)
    requires |t| >= 1
    ensures Join([[ch] + t[0]] + t[1..], sep) == [ch] + Join(t, sep)
  {
    var r := [[ch] + t[0]] + t[1..];
    if |t| > 1 {
      assert r[1..] == t[1..];
    }
  }

  /** An empty first piece followed by the separator. */
  lemma JoinConsEmpty(t: seq<string>, sep: string)
    requires |t| >= 1
    ensures Join([""] + t, sep) == sep + Join(t, sep)
  {
    assert ([""] + t)[1..] == t;
  }

  /** Splitting and joining again with the same separator gives back the
      original string: `s.split(sep).join(sep) == s`. */
  lemma {:induction false} SplitJoin(s: string, sep: string)
    requires sep != ""
    ensures Join(Split(s, sep), sep) == s
    decreases |s|
  {
    if StartsWith(s, sep) {
      var rest := s[|sep|..];
      SplitJoin(rest, sep);
      JoinConsEmpty(Split(rest, sep), sep);
      assert s == sep + rest;
    } else if s == [] {
    } else {
      SplitJoin(s[1..], sep);
      JoinConsHead(s[0], Split(s[1..], sep), sep);
      assert s == [s[0]] + s[1..];
    }
  }

  /** A string without the separator splits into itself alone. */
  lemma {:induction false} SplitWithout(s: string, sep: string)
    requires sep != "" && !Contains(s, sep)
    ensures Split(s, sep) == [s]
    decreases |s|
  {
    if s != [] {
      SplitWithout(s[1..], sep);
      assert [s[0]] + s[1..] == s;
    }
  }

  /** A join of at least two pieces holds the separator, so it is at least as
      long as the separator. */
  lemma JoinLength(parts: seq<string>, sep: string)
    requires |parts| >= 2
    ensures |Join(parts, sep)| >= |sep|
  {
  }

  /** The first piece of a split is a prefix of the input. */
  lemma {:induction false} SplitFirstIsPrefix(s: string, sep: string)
    requires sep != ""
    ensures Split(s, sep)[0] <= s
    decreases |s|
  {
    if StartsWith(s, sep) {
    } else if s == [] {
    } else {
      SplitFirstIsPrefix(s[1..], sep);
    }
  }

  /** `p` is a prefix of `s` and `s` does not start with `sep`; then `p` does
      not start with `sep` either. */
  lemma PrefixNotStarting(p: string, s: string, sep: string)
    requires p <= s && !StartsWith(s, sep)
    ensures !StartsWith(p, sep)
  {
    if |sep| <= |p| {
      assert s[..|sep|] == p[..|sep|];
    }
  }

  /** No piece of a split contains the separator. */
  lemma {:induction false} SplitPiecesFree(s: string, sep: string)
    requires sep != ""
    ensures forall k :: 0 <= k < |Split(s, sep)| ==> !Contains(Split(s, sep)[k], sep)
    decreases |s|
  {
    if StartsWith(s, sep) {
      SplitPiecesFree(s[|sep|..], sep);
      var t := Split(s[|sep|..], sep);
      assert Split(s, sep) == [""] + t;
      assert !Contains("", sep);
    } else if s == [] {
      assert !Contains("", sep);
    } else {
      var t := Split(s[1..], sep);
      SplitPiecesFree(s[1..], sep);
      SplitFirstIsPrefix(s[1..], sep);
      var head := [s[0]] + t[0];
      assert head <= s;
      PrefixNotStarting(head, s, sep);
      assert head[1..] == t[0];
      assert !Contains(head, sep);
      var r := [head] + t[1..];
      assert Split(s, sep) == r;
      forall k | 0 <= k < |r|
        ensures !Contains(r[k], sep)
      {
        if k > 0 {
          assert r[k] == t[k];
        }
      }
    }
  }

  /** Splitting `s + c`: the complete pieces of `s` (all but its last) come
      out unchanged, and the rest is the split of the last piece of `s`
      followed by `c`. This is why carrying the unfinished tail between
      chunks gives the same pieces as splitting the whole input at once. */
  lemma {:induction false} SplitAppend(s: string, c: string, sep: string)
    requires sep != ""
    ensures Split(s + c, sep) == DropLast(Split(s, sep)) + Split(Last(Split(s, sep)) + c, sep)
    decreases |s|
  {
    var p := Split(s, sep);
    if |p| == 1 {
      SplitJoin(s, sep);
    } else if StartsWith(s, sep) {
      var rest := s[|sep|..];
      assert (s + c)[..|sep|] == sep;
      assert (s + c)[|sep|..] == rest + c;
      SplitAppend(rest, c, sep);
      ConsDropLast("", Split(rest, sep), Split(Last(Split(rest, sep)) + c, sep));
    } else {
      SplitJoin(s, sep);
      JoinLength(p, sep);
      assert (s + c)[..|sep|] == s[..|sep|];
      assert (s + c)[1..] == s[1..] + c;
      var t := Split(s[1..], sep);
      SplitAppend(s[1..], c, sep);
      HeadDropLast(s[0], t, Split(Last(t) + c, sep));
    }
  }

  /** No proper suffix of `sep` is also a prefix of it, so two occurrences
      of `sep` can never overlap (true of `"; "` and of any one character). */
  predicate Unbordered(sep: string) {
    forall d :: 0 < d < |sep| ==> !StartsWith(sep, sep[d..])
  }

  /** A string led by a piece without the separator, then the separator:
      the piece comes out first and the rest is split on its own. */
  lemma {:induction false} SplitHead(a: string, sep: string, b: string)
    requires sep != "" && Unbordered(sep) && !Contains(a, sep)
    ensures Split(a + sep + b, sep) == [a] + Split(b, sep)
    decreases |a|
  {
    var s := a + sep + b;
    if a == [] {
      assert s == sep + b;
      assert s[|sep|..] == b;
    } else {
      LeadNotSeparator(a, sep, b);
      assert s[1..] == a[1..] + sep + b;
      assert !Contains(a[1..], sep);
      SplitHead(a[1..], sep, b);
      assert [a[0]] + a[1..] == a;
    }
  }

  /** A non-empty lead without the separator keeps an unbordered separator
      from starting the string. */
  lemma LeadNotSeparator(a: string, sep: string, b: string)
    requires a != [] && Unbordered(sep) && !Contains(a, sep)
    ensures !StartsWith(a + sep + b, sep)
  {
    var s := a + sep + b;
    if |a| >= |sep| {
      assert !StartsWith(a, sep);
      assert s[..|sep|] == a[..|sep|];
    } else {
      var d := |a|;
      assert !StartsWith(sep, sep[d..]);
      assert s[..|sep|][d..] == sep[..|sep| - d] != sep[d..];
    }
  }

  /** The first piece of a split runs to the end of the string or up to an
      occurrence of the separator. */
  lemma {:induction false} SplitFirstStops(s: string, sep: string)
    requires sep != ""
    ensures |Split(s, sep)[0]| <= |s|
    ensures Split(s, sep)[0] == s || StartsWith(s[|Split(s, sep)[0]|..], sep)
    decreases |s|
  {
    if !StartsWith(s, sep) && s != [] {
      var t := Split(s[1..], sep);
      SplitFirstStops(s[1..], sep);
      assert s[|Split(s, sep)[0]|..] == s[1..][|t[0]|..];
      if t[0] == s[1..] {
        assert [s[0]] + s[1..] == s;
      }
    }
  }

  /** A string holding the separator splits into at least two pieces. */
  lemma {:induction false} SplitAtLeastTwo(s: string, sep: string)
    requires sep != "" && Contains(s, sep)
    ensures |Split(s, sep)| >= 2
    decreases |s|
  {
    if !StartsWith(s, sep) {
      SplitAtLeastTwo(s[1..], sep);
    }
  }

  /** Sequence algebra for the separator case of SplitAppend. */
  lemma ConsDropLast<T>(x: T, q: seq<T>, v: seq<T>)
    requires |q| >= 1
    ensures [x] + (DropLast(q) + v) == DropLast([x] + q) + v
    ensures Last([x] + q) == Last(q)
  {
    assert DropLast([x] + q) == [x] + DropLast(q);
  }

  /** Sequence algebra for the character case of SplitAppend. */
  lemma HeadDropLast(ch: char, t: seq<string>, v: seq<string>)
    requires |t| >= 2
    ensures var u := DropLast(t) + v;
      [[ch] + u[0]] + u[1..] == DropLast([[ch] + t[0]] + t[1..]) + v
    ensures Last([[ch] + t[0]] + t[1..]) == Last(t)
  {
    var u := DropLast(t) + v;
    assert u[0] == t[0];
    assert u[1..] == DropLast(t)[1..] + v;
    assert DropLast([[ch] + t[0]] + t[1..]) == [[ch] + t[0]] + DropLast(t)[1..];
  }

  // ---------------------------------------------------------------------
  // trim

  /** The characters `String.prototype.trim` removes: white space and line
      terminators (the Unicode space separators, tab, vertical tab, form
      feed, byte-order mark, LF, CR, and the line/paragraph separators). */
  predicate IsSpace(c: char) {
    c == ' ' || c == '\t' || c == '\n' || c == '\r' || c == '\U{000B}' || c == '\U{000C}'
    || c == '\U{00A0}' || c == '\U{1680}' || ('\U{2000}' <= c <= '\U{200A}')
    || c == '\U{2028}' || c == '\U{2029}' || c == '\U{202F}' || c == '\U{205F}'
    || c == '\U{3000}' || c == '\U{FEFF}'
  }

  function TrimStart(s: string): string
    decreases |s|
  {
    if s != [] && IsSpace(s[0]) then TrimStart(s[1..]) else s
  }

  function TrimEnd(s: string): string
    decreases |s|
  {
    if s != [] && IsSpace(s[|s| - 1]) then TrimEnd(s[..|s| - 1]) else s
  }

  /** `s.trim()` */
  function Trim(s: string): string {
    TrimEnd(TrimStart(s))
  }

  /** Every character is white space. */
  predicate AllSpace(s: string) {
    forall i :: 0 <= i < |s| ==> IsSpace(s[i])
  }

  lemma {:induction false} TrimStartEmpty(s: string)
    ensures TrimStart(s) == [] <==> AllSpace(s)
    decreases |s|
  {
    if s != [] && IsSpace(s[0]) {
      TrimStartEmpty(s[1..]);
      assert AllSpace(s) <==> AllSpace(s[1..]) by {
        if AllSpace(s[1..]) {
          forall i | 0 <= i < |s| ensures IsSpace(s[i]) {
            if i > 0 { assert s[i] == s[1..][i - 1]; }
          }
        }
      }
    }
  }

  lemma {:induction false} TrimStartShape(s: string)
    ensures TrimStart(s) == [] || !IsSpace(TrimStart(s)[0])
    decreases |s|
  {
    if s != [] && IsSpace(s[0]) {
      TrimStartShape(s[1..]);
    }
  }

  lemma {:induction false} TrimEndEmpty(t: string)
    requires t == [] || !IsSpace(t[0])
    ensures TrimEnd(t) == [] <==> t == []
    decreases |t|
  {
    if t != [] && IsSpace(t[|t| - 1]) {
      TrimEndEmpty(t[..|t| - 1]);
    }
  }

  /** `s.trim() === ''` exactly when `s` consists of white space only (the
      guard `!s.trim()` that the forms and handlers use). */
  lemma TrimEmptyIffAllSpace(s: string)
    ensures Trim(s) == "" <==> AllSpace(s)
  {
    TrimStartEmpty(s);
    TrimStartShape(s);
    TrimEndEmpty(TrimStart(s));
  }

  // ---------------------------------------------------------------------
  // slice, lower case

  /** `s.slice(0, n)` */
  function Take(s: string, n: nat): (r: string)
    ensures r <= s && |r| == if n < |s| then n else |s|
  {
    if n < |s| then s[..n] else s
  }

  /** `toLowerCase` on the ASCII letters; other characters are kept. */
  function LowerChar(c: char): char {
    if 'A' <= c <= 'Z' then (c as int - 'A' as int + 'a' as int) as char else c
  }

  /** `s.toLowerCase()`, restricted to ASCII case mapping. */
  function Lower(s: string): (r: string)
    ensures |r| == |s|
    ensures forall i :: 0 <= i < |s| ==> r[i] == LowerChar(s[i])
  {
    seq(|s|, i requires 0 <= i < |s| => LowerChar(s[i]))
  }
}
