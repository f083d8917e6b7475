/**
 Lists of strings packed into one string: every part is escaped with backslashes, and the parts
 are joined with a delimiter that the escaping protects. Both key codecs of the repository are
 instances, with "," and ":" as their delimiters.
 */
module EscapedLists {
  const BACKSLASH := '\\'

  /** `s.replace(/c/g, with)` */
  function ReplaceAll(s: string, c: char, with: string): string {
    if s == [] then []
    else (if s[0] == c then with else [s[0]]) + ReplaceAll(s[1..], c, with)
  }

  /** Backslashes are doubled first, then each delimiter gets a backslash in front. */
  function Escape(s: string, delimiter: char): string {
    ReplaceAll(ReplaceAll(s, BACKSLASH, [BACKSLASH, BACKSLASH]), delimiter, [BACKSLASH, delimiter])
  }

  function EscapeChar(c: char, delimiter: char): string {
    if c == BACKSLASH || c == delimiter then [BACKSLASH, c] else [c]
  }

  /** `parts.join(delimiter)` */
  function Join(parts: seq<string>, delimiter: char): string {
    if parts == [] then []
    else if |parts| == 1 then parts[0]
    else Join(parts[..|parts| - 1], delimiter) + [delimiter] + parts[|parts| - 1]
  }

  /** What the decoding loop carries from one character to the next. */
  datatype Scanner = Scanner(parts: seq<string>, currentPart: string, escaping: bool)

  const START := Scanner([], [], false)

  function Feed(st: Scanner, c: char, delimiter: char): Scanner {
    if st.escaping then st.(currentPart := st.currentPart + [c], escaping := false)
    else if c == BACKSLASH then st.(escaping := true)
    else if c == delimiter then st.(parts := st.parts + [st.currentPart], currentPart := [])
    else st.(currentPart := st.currentPart + [c])
  }

  function Scan(s: string, st: Scanner, delimiter: char): Scanner {
    if s == [] then st else Feed(Scan(s[..|s| - 1], st, delimiter), s[|s| - 1], delimiter)
  }

  lemma {:induction false} ReplaceAllConcat(a: string, b: string, c: char, with: string)
    ensures ReplaceAll(a + b, c, with) == ReplaceAll(a, c, with) + ReplaceAll(b, c, with)
  {
    if a == [] {
      assert a + b == b;
    } else {
      assert (a + b)[1..] == a[1..] + b;
      ReplaceAllConcat(a[1..], b, c, with);
    }
  }

  lemma {:induction false} ReplaceNothing(s: string, c: char, with: string)
    requires c !in s
    ensures ReplaceAll(s, c, with) == s
  {
    if s != [] {
      ReplaceNothing(s[1..], c, with);
      assert s == [s[0]] + s[1..];
    }
  }

  lemma NothingToEscape(s: string, delimiter: char)
    requires BACKSLASH !in s && delimiter !in s
    ensures Escape(s, delimiter) == s
  {
    ReplaceNothing(s, BACKSLASH, [BACKSLASH, BACKSLASH]);
    ReplaceNothing(s, delimiter, [BACKSLASH, delimiter]);
  }

  lemma ReplaceOne(x: char, c: char, with: string)
    ensures ReplaceAll([x], c, with) == if x == c then with else [x]
  {
    assert [x][1..] == [] && with + [] == with;
  }

  /** The two passes over a string are one pass over its characters: the second never sees a delimiter of the first. */
  lemma EscapeSnoc(s: string, c: char, delimiter: char)
    requires delimiter != BACKSLASH
    ensures Escape(s + [c], delimiter) == Escape(s, delimiter) + EscapeChar(c, delimiter)
  {
    ReplaceAllConcat(s, [c], BACKSLASH, [BACKSLASH, BACKSLASH]);
    ReplaceOne(c, BACKSLASH, [BACKSLASH, BACKSLASH]);
    var first := if c == BACKSLASH then [BACKSLASH, BACKSLASH] else [c];
    ReplaceAllConcat(ReplaceAll(s, BACKSLASH, [BACKSLASH, BACKSLASH]), first, delimiter, [BACKSLASH, delimiter]);
    ReplaceOne(c, delimiter, [BACKSLASH, delimiter]);
    if c == BACKSLASH {
      assert first == [BACKSLASH] + [BACKSLASH];
      ReplaceAllConcat([BACKSLASH], [BACKSLASH], delimiter, [BACKSLASH, delimiter]);
    }
  }

  lemma {:induction false} ScanConcat(a: string, b: string, st: Scanner, delimiter: char)
    ensures Scan(a + b, st, delimiter) == Scan(b, Scan(a, st, delimiter), delimiter)
  {
    if b == [] {
      assert a + b == a;
    } else {
      assert (a + b)[..|a + b| - 1] == a + b[..|b| - 1];
      ScanConcat(a, b[..|b| - 1], st, delimiter);
    }
  }

  /** `code` is an encoding of `part`: the scanner appends exactly `part`, wherever it meets `code`. */
  ghost predicate Encodes(code: string, part: string, delimiter: char) {
    forall st: Scanner {:trigger Scan(code, st, delimiter)} ::
      !st.escaping ==> Scan(code, st, delimiter) == st.(currentPart := st.currentPart + part)
  }

  lemma {:induction false} EscapeEncodes(part: string, delimiter: char)
    requires delimiter != BACKSLASH
    ensures Encodes(Escape(part, delimiter), part, delimiter)
  {
    forall st: Scanner | !st.escaping
      ensures Scan(Escape(part, delimiter), st, delimiter) == st.(currentPart := st.currentPart + part)
    {
      if part == [] {
        assert st.currentPart + part == st.currentPart;
      } else {
        var front, c := part[..|part| - 1], part[|part| - 1];
        assert part == front + [c];
        EscapeEncodes(front, delimiter);
        EscapeSnoc(front, c, delimiter);
        var mid := Scan(Escape(front, delimiter), st, delimiter);
        ScanConcat(Escape(front, delimiter), EscapeChar(c, delimiter), st, delimiter);
        ScanChar(c, mid, delimiter);
        assert st.currentPart + part == (st.currentPart + front) + [c];
      }
    }
  }

  lemma ScanChar(c: char, st: Scanner, delimiter: char)
    requires delimiter != BACKSLASH && !st.escaping
    ensures Scan(EscapeChar(c, delimiter), st, delimiter) == st.(currentPart := st.currentPart + [c])
  {
    ScanOne(c, st, delimiter);
    if EscapeChar(c, delimiter) == [BACKSLASH, c] {
      assert [BACKSLASH, c] == [BACKSLASH] + [c];
      ScanConcat([BACKSLASH], [c], st, delimiter);
      ScanOne(BACKSLASH, st, delimiter);
      ScanOne(c, st.(escaping := true), delimiter);
    }
  }

  lemma ScanOne(c: char, st: Scanner, delimiter: char)
    ensures Scan([c], st, delimiter) == Feed(st, c, delimiter)
  {
    assert [c][..0] == [];
  }

  lemma ScanNextPart(text: string, st: Scanner, code: string, part: string, delimiter: char)
    requires delimiter != BACKSLASH && Encodes(code, part, delimiter)
    requires Scan(text, START, delimiter) == st && !st.escaping
    ensures Scan(text + [delimiter] + code, START, delimiter) == Scanner(st.parts + [st.currentPart], part, false)
  {
    ScanConcat(text, [delimiter], START, delimiter);
    ScanOne(delimiter, st, delimiter);
    ScanConcat(text + [delimiter], code, START, delimiter);
    assert [] + part == part;
  }

  /** The scanner splits a joined list of encodings back into the parts. */
  lemma {:induction false} ScanJoin(codes: seq<string>, parts: seq<string>, delimiter: char)
    requires delimiter != BACKSLASH && |codes| == |parts| > 0
    requires forall k | 0 <= k < |parts| :: Encodes(codes[k], parts[k], delimiter)
    ensures Scan(Join(codes, delimiter), START, delimiter) == Scanner(parts[..|parts| - 1], parts[|parts| - 1], false)
    decreases |parts|
  {
    var n := |parts| - 1;
    if n == 0 {
      assert Encodes(codes[0], parts[0], delimiter);
      assert Scan(codes[0], START, delimiter) == Scanner([], [] + parts[0], false);
      assert [] + parts[0] == parts[0];
    } else {
      var front := parts[..n];
      forall k | 0 <= k < n ensures Encodes(codes[..n][k], front[k], delimiter) {
        assert Encodes(codes[k], parts[k], delimiter);
      }
      ScanJoin(codes[..n], front, delimiter);
      assert Encodes(codes[n], parts[n], delimiter);
      var st := Scanner(front[..n - 1], front[n - 1], false);
      ScanNextPart(Join(codes[..n], delimiter), st, codes[n], parts[n], delimiter);
      assert front[..n - 1] + [front[n - 1]] == front;
    }
  }

  /** So two lists of parts with the same joined encoding are the same list. */
  lemma JoinInjective(codes: seq<string>, parts: seq<string>, codes': seq<string>, parts': seq<string>, delimiter: char)
    requires delimiter != BACKSLASH && |codes| == |parts| > 0 && |codes'| == |parts'| > 0
    requires forall k | 0 <= k < |parts| :: Encodes(codes[k], parts[k], delimiter)
    requires forall k | 0 <= k < |parts'| :: Encodes(codes'[k], parts'[k], delimiter)
    requires Join(codes, delimiter) == Join(codes', delimiter)
    ensures parts == parts'
  {
    ScanJoin(codes, parts, delimiter);
    ScanJoin(codes', parts', delimiter);
    SameParts(parts, parts');
  }

  lemma SameParts(parts: seq<string>, parts': seq<string>)
    requires |parts| > 0 && |parts'| > 0
    requires parts[..|parts| - 1] == parts'[..|parts'| - 1] && parts[|parts| - 1] == parts'[|parts'| - 1]
    ensures parts == parts'
  {
    assert parts == parts[..|parts| - 1] + [parts[|parts| - 1]];
    assert parts' == parts'[..|parts'| - 1] + [parts'[|parts'| - 1]];
  }
}
