/**
 The codec that packs an actor key, a list of strings, into one string. The Cloudflare platform and
 the Rivet driver carry the same code.
 */
module KeyCodec {
  import opened EscapedLists
  import opened Wrappers

  const EMPTY_KEY := "(none)"
  const KEY_SEPARATOR := ','

  function EncodePart(part: string): string {
    if part == EMPTY_KEY then [BACKSLASH] + EMPTY_KEY else Escape(part, KEY_SEPARATOR)
  }

  function EncodeParts(key: seq<string>): (r: seq<string>)
    ensures |r| == |key| && forall k | 0 <= k < |key| :: r[k] == EncodePart(key[k])
  {
    seq(|key|, k requires 0 <= k < |key| => EncodePart(key[k]))
  }

  function SerializeKey(key: seq<string>): string {
    if |key| == 0 then EMPTY_KEY else Join(EncodeParts(key), KEY_SEPARATOR)
  }

  function EscapeName(name: string): string {
    ReplaceAll(name, ':', [BACKSLASH, ':'])
  }

  function SerializeNameAndKey(name: string, key: seq<string>): string {
    var escapedName := EscapeName(name);
    if |key| == 0 then escapedName + ":" + EMPTY_KEY else escapedName + ":" + SerializeKey(key)
  }

  /** The parts that the decoding loop ends with; an empty last part counts only behind another one. */
  function Parts(st: Scanner): seq<string> {
    if st.currentPart != [] || |st.parts| > 0 then st.parts + [st.currentPart] else st.parts
  }

  function Decoded(keyString: string): seq<string> {
    if keyString == [] || keyString == EMPTY_KEY then [] else Parts(Scan(keyString, START, KEY_SEPARATOR))
  }

  method DeserializeKey(keyString: string) returns (parts: seq<string>)
    ensures parts == Decoded(keyString)
    ensures forall key :: key != [""] && keyString == SerializeKey(key) ==> parts == key
  {
    forall key | key != [""] && keyString == SerializeKey(key) ensures Decoded(keyString) == key {
      RoundTrip(key);
    }
    if |keyString| == 0 {
      return [];
    }
    if keyString == EMPTY_KEY {
      return [];
    }
    parts := [];
    var currentPart: string := [];
    var escaping := false;
    for i := 0 to |keyString|
      invariant Scan(keyString[..i], START, KEY_SEPARATOR) == Scanner(parts, currentPart, escaping)
    {
      var ch := keyString[i];
      assert keyString[..i + 1][..i] == keyString[..i];
      if escaping {
        currentPart := currentPart + [ch];
        escaping := false;
      } else if ch == BACKSLASH {
        escaping := true;
      } else if ch == KEY_SEPARATOR {
        parts := parts + [currentPart];
        currentPart := [];
      } else {
        currentPart := currentPart + [ch];
      }
    }
    assert keyString[..|keyString|] == keyString;
    if |currentPart| > 0 || |parts| > 0 {
      parts := parts + [currentPart];
    }
  }

  /** The Rivet driver's decoder, which also takes a tag that is not there. */
  method DeserializeKeyFromTag(keyString: Option<string>) returns (parts: seq<string>)
    ensures keyString.None? ==> parts == []
    ensures keyString.Some? ==> parts == Decoded(keyString.value)
    ensures forall key :: key != [""] && keyString == Some(SerializeKey(key)) ==> parts == key
  {
    if keyString.None? {
      return [];
    }
    parts := DeserializeKey(keyString.value);
  }

  // ---------- Round trip and injectivity ----------

  /** The escaped marker decodes to the marker, because a backslash protects any character. */
  lemma MarkerEncodes()
    ensures Encodes([BACKSLASH] + EMPTY_KEY, EMPTY_KEY, KEY_SEPARATOR)
  {
    forall st: Scanner | !st.escaping
      ensures Scan([BACKSLASH] + EMPTY_KEY, st, KEY_SEPARATOR) == st.(currentPart := st.currentPart + EMPTY_KEY)
    {
      var tail := "none)";
      PlainScan(tail, st.(currentPart := st.currentPart + ['(']));
      ScanConcat([BACKSLASH, '('], tail, st, KEY_SEPARATOR);
      assert [BACKSLASH, '('] == [BACKSLASH] + ['('];
      ScanConcat([BACKSLASH], ['('], st, KEY_SEPARATOR);
      ScanOne(BACKSLASH, st, KEY_SEPARATOR);
      ScanOne('(', st.(escaping := true), KEY_SEPARATOR);
      assert [BACKSLASH] + EMPTY_KEY == [BACKSLASH, '('] + tail;
      assert (st.currentPart + ['(']) + tail == st.currentPart + EMPTY_KEY;
    }
  }

  lemma {:induction false} PlainScan(s: string, st: Scanner)
    requires !st.escaping && BACKSLASH !in s && KEY_SEPARATOR !in s
    ensures Scan(s, st, KEY_SEPARATOR) == st.(currentPart := st.currentPart + s)
  {
    if s == [] {
      assert st.currentPart + s == st.currentPart;
    } else {
      var front := s[..|s| - 1];
      PlainScan(front, st);
      assert s == front + [s[|s| - 1]];
      assert (st.currentPart + front) + [s[|s| - 1]] == st.currentPart + s;
    }
  }

  lemma PartsEncoded(key: seq<string>)
    ensures forall k | 0 <= k < |key| :: Encodes(EncodeParts(key)[k], key[k], KEY_SEPARATOR)
  {
    forall k | 0 <= k < |key| ensures Encodes(EncodeParts(key)[k], key[k], KEY_SEPARATOR) {
      if key[k] == EMPTY_KEY {
        MarkerEncodes();
      } else {
        EscapeEncodes(key[k], KEY_SEPARATOR);
      }
    }
  }

  lemma ScanSerialized(key: seq<string>)
    requires key != []
    ensures Scan(SerializeKey(key), START, KEY_SEPARATOR) == Scanner(key[..|key| - 1], key[|key| - 1], false)
  {
    PartsEncoded(key);
    ScanJoin(EncodeParts(key), key, KEY_SEPARATOR);
  }

  lemma ScanMarker()
    ensures Scan(EMPTY_KEY, START, KEY_SEPARATOR) == Scanner([], EMPTY_KEY, false)
  {
    PlainScan(EMPTY_KEY, START);
  }

  lemma OnePartCode(part: string)
    ensures SerializeKey([part]) == EncodePart(part)
  {
    assert EncodeParts([part])[0] == EncodePart(part);
  }

  lemma OnlyPart(key: seq<string>, part: string)
    requires key != [] && key[..|key| - 1] == [] && key[|key| - 1] == part
    ensures key == [part]
  {
  }

  /** The marker is the code of the empty key only, because a part that spells it is escaped. */
  lemma MarkerCode(key: seq<string>)
    ensures SerializeKey(key) == "(none)" <==> key == []
  {
    if key != [] && SerializeKey(key) == EMPTY_KEY {
      ScanSerialized(key);
      ScanMarker();
      OnlyPart(key, EMPTY_KEY);
      OnePartCode(EMPTY_KEY);
      assert false;
    }
  }

  /** The empty string is the code of the key whose only part is empty. */
  lemma EmptyCode(key: seq<string>)
    ensures SerializeKey(key) == [] <==> key == [""]
  {
    if key == [""] {
      OnePartCode("");
    } else if key != [] && SerializeKey(key) == [] {
      ScanSerialized(key);
      OnlyPart(key, "");
      assert false;
    }
  }

  lemma PartsComplete(key: seq<string>)
    requires key != [] && key != [""]
    ensures Parts(Scanner(key[..|key| - 1], key[|key| - 1], false)) == key
  {
    assert key == key[..|key| - 1] + [key[|key| - 1]];
  }

  /** Decoding inverts encoding, except for the key whose only part is the empty string. */
  lemma RoundTrip(key: seq<string>)
    ensures Decoded(SerializeKey(key)) == key <==> key != [""]
  {
    MarkerCode(key);
    EmptyCode(key);
    if key != [] && key != [""] {
      ScanSerialized(key);
      PartsComplete(key);
    }
  }

  /** Encoding is injective on all keys, including that one. */
  lemma SerializeKeyInjective(key: seq<string>, key': seq<string>)
    requires SerializeKey(key) == SerializeKey(key')
    ensures key == key'
  {
    MarkerCode(key);
    MarkerCode(key');
    if key != [] && key' != [] {
      PartsEncoded(key);
      PartsEncoded(key');
      JoinInjective(EncodeParts(key), key, EncodeParts(key'), key', KEY_SEPARATOR);
    }
  }

  // ---------- Names and keys ----------

  lemma EscapeNameSnoc(name: string)
    requires name != []
    ensures var c := name[|name| - 1];
            EscapeName(name) == EscapeName(name[..|name| - 1]) + if c == ':' then [BACKSLASH, ':'] else [c]
  {
    var front, c := name[..|name| - 1], name[|name| - 1];
    assert name == front + [c] && [c][1..] == [];
    ReplaceAllConcat(front, [c], ':', [BACKSLASH, ':']);
  }

  lemma {:induction false} EscapeNameInjective(name: string, name': string)
    requires EscapeName(name) == EscapeName(name')
    ensures name == name'
  {
    if name != [] {
      EscapeNameSnoc(name);
    }
    if name' != [] {
      EscapeNameSnoc(name');
    }
    if name != [] && name' != [] {
      var e := EscapeName(name);
      var front, front' := name[..|name| - 1], name'[..|name'| - 1];
      var c := name[|name| - 1];
      assert c == e[|e| - 1] == name'[|name'| - 1];
      var n := |e| - if c == ':' then 2 else 1;
      assert EscapeName(front) == e[..n] == EscapeName(front');
      EscapeNameInjective(front, front');
      assert name == front + [c] && name' == front' + [c];
    }
  }

  /** In an escaped name every colon follows a backslash. */
  lemma {:induction false} ColonsEscaped(name: string, i: nat)
    requires i < |EscapeName(name)| && EscapeName(name)[i] == ':'
    ensures 0 < i && EscapeName(name)[i - 1] == BACKSLASH
  {
    EscapeNameSnoc(name);
    var front := EscapeName(name[..|name| - 1]);
    if i < |front| {
      ColonsEscaped(name[..|name| - 1], i);
    }
  }

  predicate EndsInBackslash(name: string) {
    name != [] && name[|name| - 1] == BACKSLASH
  }

  lemma EscapedEnd(name: string)
    ensures EndsInBackslash(EscapeName(name)) <==> EndsInBackslash(name)
  {
    if name != [] {
      EscapeNameSnoc(name);
    }
  }

  lemma NameNotLonger(name: string, key: seq<string>, name': string, key': seq<string>)
    requires !EndsInBackslash(name)
    requires SerializeNameAndKey(name, key) == SerializeNameAndKey(name', key')
    ensures |EscapeName(name')| <= |EscapeName(name)|
  {
    var e, e' := EscapeName(name), EscapeName(name');
    var code := SerializeNameAndKey(name, key);
    assert code == (e + [':']) + SerializeKey(key);
    assert code == (e' + [':']) + SerializeKey(key');
    if |e| < |e'| {
      assert e'[|e|] == code[|e|] == ':';
      ColonsEscaped(name', |e|);
      assert e[|e| - 1] == code[|e| - 1] == e'[|e| - 1];
      EscapedEnd(name);
    }
  }

  lemma {:induction false} NameAndKeyInjective(name: string, key: seq<string>, name': string, key': seq<string>)
    requires !EndsInBackslash(name) && !EndsInBackslash(name')
    requires SerializeNameAndKey(name, key) == SerializeNameAndKey(name', key')
    ensures name == name' && key == key'
  {
    var e, e' := EscapeName(name), EscapeName(name');
    NameNotLonger(name, key, name', key');
    NameNotLonger(name', key', name, key);
    var code := SerializeNameAndKey(name, key);
    assert code == (e + [':']) + SerializeKey(key);
    assert code == (e' + [':']) + SerializeKey(key');
    assert e == code[..|e|] == e';
    assert SerializeKey(key) == code[|e| + 1..] == SerializeKey(key');
    EscapeNameInjective(name, name');
    SerializeKeyInjective(key, key');
  }

  /** Backslashes in names are not escaped, so a name that ends in one runs into the separating colon. */
  lemma BackslashCollides(name: string)
    ensures SerializeNameAndKey(name + [BACKSLASH], ["x:y"]) == SerializeNameAndKey(name + ":x", ["y"])
    ensures !EndsInBackslash(name + ":x")
  {
    var b, x := name + [BACKSLASH], name + ":x";
    EscapeNameSnoc(b);
    assert b[..|b| - 1] == name;
    EscapeNameSnoc(x);
    assert x[..|x| - 1] == name + ":";
    EscapeNameSnoc(name + ":");
    assert (name + ":")[..|name|] == name;
    PlainPart("x:y");
    PlainPart("y");
    assert SerializeNameAndKey(b, ["x:y"]) == EscapeName(name) + [BACKSLASH] + ":" + "x:y";
    assert SerializeNameAndKey(x, ["y"]) == EscapeName(name) + [BACKSLASH, ':'] + "x" + ":" + "y";
  }

  lemma PlainPart(part: string)
    requires part != EMPTY_KEY && BACKSLASH !in part && KEY_SEPARATOR !in part
    ensures SerializeKey([part]) == part
  {
    NothingToEscape(part, KEY_SEPARATOR);
    assert EncodeParts([part])[0] == part;
  }

  /** Keys and names without special characters are joined by a comma and a colon, as they are. */
  lemma PlainFormat(name: string, a: string, b: string)
    requires BACKSLASH !in a && ',' !in a && a != "(none)"
    requires BACKSLASH !in b && ',' !in b && b != "(none)" && ':' !in name
    ensures SerializeKey([a, b]) == a + "," + b
    ensures SerializeNameAndKey(name, [a, b]) == name + ":" + (a + "," + b)
    ensures SerializeNameAndKey(name, []) == name + ":(none)"
  {
    PlainPart(a);
    PlainPart(b);
    OnePartCode(a);
    OnePartCode(b);
    ReplaceNothing(name, ':', [BACKSLASH, ':']);
    assert EncodeParts([a, b]) == [a, b];
    assert [a, b][..1] == [a];
    assert Join([a, b], ',') == a + [','] + b;
  }

  /**
   Exactly when a name is safe: its codes are shared with no other pair of an equally safe name
   if and only if the name does not end in a backslash.
   */
  lemma NameAndKeyExact(name: string)
    ensures (forall key, name', key' |
               !EndsInBackslash(name') && SerializeNameAndKey(name, key) == SerializeNameAndKey(name', key') ::
               name == name' && key == key')
            <==> !EndsInBackslash(name)
  {
    if EndsInBackslash(name) {
      var front := name[..|name| - 1];
      assert name == front + [BACKSLASH];
      BackslashCollides(front);
      assert name != front + ":x";
    } else {
      forall key, name', key' |
        !EndsInBackslash(name') && SerializeNameAndKey(name, key) == SerializeNameAndKey(name', key')
        ensures name == name' && key == key'
      {
        NameAndKeyInjective(name, key, name', key');
      }
    }
  }
}
