/** The cookie header of a WebSocket handshake (section 4.2.1 of RFC 6265), as the logs gateway reads it. */
module Cookies {
  import opened Sequences
  import PercentEncoding

  /** What String.prototype.trim takes away. */
  predicate Blank(c: char) {
    || '\t' <= c <= '\r' || c == ' ' || c == '\U{A0}' || c == '\U{1680}' || '\U{2000}' <= c <= '\U{200A}'
    || c == '\U{2028}' || c == '\U{2029}' || c == '\U{202F}' || c == '\U{205F}' || c == '\U{3000}' || c == '\U{FEFF}'
  }

  function TrimStart(s: string): (r: string)
    ensures |r| > 0 ==> !Blank(r[0])
    ensures |r| <= |s| && r == s[|s| - |r|..]
  {
    if |s| > 0 && Blank(s[0]) then TrimStart(s[1..]) else s
  }

  function TrimEnd(s: string): (r: string)
    ensures |r| > 0 ==> !Blank(r[|r| - 1])
    ensures |r| <= |s| && r == s[..|r|]
  {
    if |s| > 0 && Blank(s[|s| - 1]) then TrimEnd(s[..|s| - 1]) else s
  }

  function Trim(s: string): (r: string)
    ensures |r| > 0 ==> !Blank(r[0]) && !Blank(r[|r| - 1])
  {
    TrimEnd(TrimStart(s))
  }

  /** One cookie: the text before the first '=' of the trimmed part, and all the text after it. */
  datatype Pair = Pair(key: string, text: string)

  function Read(part: string): Pair {
    var fields := Split(Trim(part), '=');
    Pair(fields[0], Join(fields[1..], '='))
  }

  /** Assigning to this key of an object sets its prototype; a string there changes nothing. */
  const PROTO := "__proto__"

  function Assign(cookies: map<string, string>, key: string, value: string): map<string, string> {
    if key == PROTO then cookies else cookies[key := value]
  }

  /** The parts from left to right; the first value that does not decode ends the loop. */
  function ReadAll(parts: seq<string>, cookies: map<string, string>): map<string, string>
    decreases |parts|
  {
    if |parts| == 0 then cookies
    else
      var pair := Read(parts[0]);
      if pair.key == "" then ReadAll(parts[1..], cookies)
      else
        var value := PercentEncoding.Decode(pair.text);
        if value.None? then cookies else ReadAll(parts[1..], Assign(cookies, pair.key, value.value))
  }

  function Parsed(header: string): map<string, string> {
    ReadAll(Split(header, ';'), map[])
  }

  method ParseCookies(header: string) returns (cookies: map<string, string>)
    ensures cookies == Parsed(header)
  {
    cookies := map[];
    if header == "" {
      return;
    }
    var parts := Split(header, ';');
    for i := 0 to |parts|
      invariant ReadAll(parts[i..], cookies) == Parsed(header)
    {
      assert parts[i..][1..] == parts[i + 1..];
      var fields := Split(Trim(parts[i]), '=');
      if fields[0] != "" {
        var value := PercentEncoding.Decode(Join(fields[1..], '='));
        if value.None? {
          return;
        }
        cookies := Assign(cookies, fields[0], value.value);
      }
    }
  }

  // ---------------------------------------------------------------- what a header should mean

  predicate CleanKey(key: string) {
    key != "" && ';' !in key && '=' !in key && !Blank(key[0])
  }

  /** A pair that can be written into a header: the text may hold '=', and may fail to decode. */
  predicate Writable(p: Pair) {
    CleanKey(p.key) && ';' !in p.text && (|p.text| > 0 ==> !Blank(p.text[|p.text| - 1]))
  }

  function WritePair(p: Pair): string {
    p.key + "=" + p.text
  }

  /** k1=t1; k2=t2; ... */
  function Header(pairs: seq<Pair>): string {
    if |pairs| == 0 then ""
    else if |pairs| == 1 then WritePair(pairs[0])
    else WritePair(pairs[0]) + "; " + Header(pairs[1..])
  }

  function Decodes(p: Pair): bool {
    PercentEncoding.Decode(p.text).Some?
  }

  /** The pairs before the first one that does not decode. */
  function Readable(pairs: seq<Pair>): (r: seq<Pair>)
    ensures r <= pairs && (r < pairs ==> !Decodes(pairs[|r|]))
    ensures forall i :: 0 <= i < |r| ==> Decodes(r[i])
  {
    if |pairs| > 0 && Decodes(pairs[0]) then [pairs[0]] + Readable(pairs[1..]) else []
  }

  /** The value at a key: the last pair with the key decides. */
  function Lookup(pairs: seq<Pair>, key: string): Option<string> {
    if |pairs| == 0 || key == PROTO then None
    else
      var last := pairs[|pairs| - 1];
      if last.key == key then PercentEncoding.Decode(last.text) else Lookup(pairs[..|pairs| - 1], key)
  }

  function Get(cookies: map<string, string>, key: string): Option<string> {
    if key in cookies then Some(cookies[key]) else None
  }

  // ---------------------------------------------------------------- reading back one pair

  lemma {:induction false} TrimEndKeeps(s: string)
    requires |s| > 0 ==> !Blank(s[|s| - 1])
    ensures TrimEnd(s) == s
  {
  }

  lemma OneBlank(s: string)
    ensures TrimStart(" " + s) == TrimStart(s)
  {
    assert Blank(' ');
    assert (" " + s)[1..] == s;
  }

  lemma TrimPair(p: Pair, lead: string)
    requires Writable(p) && (lead == "" || lead == " ")
    ensures Trim(lead + WritePair(p)) == WritePair(p)
  {
    var s := WritePair(p);
    assert s[0] == p.key[0];
    assert s[|s| - 1] == if |p.text| > 0 then p.text[|p.text| - 1] else '=';
    assert !Blank(s[0]) && !Blank(s[|s| - 1]);
    hide Writable, WritePair, Blank;
    TrimEndKeeps(s);
    assert TrimStart(s) == s;
    if lead == " " {
      assert (lead + s)[1..] == s;
      assert TrimStart(lead + s) == TrimStart(s) by {
        OneBlank(s);
      }
    } else {
      assert lead + s == s;
    }
  }

  lemma ReadWritten(p: Pair, lead: string)
    requires Writable(p) && (lead == "" || lead == " ")
    ensures Read(lead + WritePair(p)) == p
  {
    TrimPair(p, lead);
    SplitAtSeparator(p.key, p.text, '=');
    JoinSplit(p.text, '=');
    var fields := Split(p.text, '=');
    assert ([p.key] + fields)[1..] == fields;
  }

  /** The parts a header falls into: one blank stands before all pairs but the first. */
  function Parts(pairs: seq<Pair>, lead: string): (parts: seq<string>)
    ensures |parts| == |pairs|
  {
    if |pairs| == 0 then [] else [lead + WritePair(pairs[0])] + Parts(pairs[1..], " ")
  }

  lemma {:induction false} SplitHeader(pairs: seq<Pair>, lead: string)
    requires |pairs| > 0 && ';' !in lead && forall i :: 0 <= i < |pairs| ==> ';' !in WritePair(pairs[i])
    ensures Split(lead + Header(pairs), ';') == Parts(pairs, lead)
  {
    hide Split, WritePair;
    var head := lead + WritePair(pairs[0]);
    if |pairs| == 1 {
      SplitWithoutSeparator(head, ';');
      assert lead + Header(pairs) == head;
    } else {
      var tail := " " + Header(pairs[1..]);
      SplitHeader(pairs[1..], " ");
      assert lead + Header(pairs) == head + [';'] + tail;
      SplitAtSeparator(head, tail, ';');
    }
  }

  lemma {:induction false} ReadParts(pairs: seq<Pair>, lead: string)
    requires (lead == "" || lead == " ") && forall i :: 0 <= i < |pairs| ==> Writable(pairs[i])
    ensures forall i :: 0 <= i < |pairs| ==> Read(Parts(pairs, lead)[i]) == pairs[i]
  {
    hide Read, WritePair;
    if |pairs| > 0 {
      ReadWritten(pairs[0], lead);
      ReadParts(pairs[1..], " ");
    }
  }

  /** Reading parts is reading the pairs they hold. */
  function Store(pairs: seq<Pair>, cookies: map<string, string>): map<string, string>
    requires forall i :: 0 <= i < |pairs| ==> Decodes(pairs[i])
  {
    if |pairs| == 0 then cookies
    else
      var n := |pairs| - 1;
      assert Decodes(pairs[n]);
      Assign(Store(pairs[..n], cookies), pairs[n].key, PercentEncoding.Decode(pairs[n].text).value)
  }

  lemma {:induction false} StoreFirst(p: Pair, pairs: seq<Pair>, cookies: map<string, string>)
    requires Decodes(p) && forall i :: 0 <= i < |pairs| ==> Decodes(pairs[i])
    ensures Store([p] + pairs, cookies) == Store(pairs, Assign(cookies, p.key, PercentEncoding.Decode(p.text).value))
  {
    var all := [p] + pairs;
    if |pairs| == 0 {
      assert all[..0] == [];
    } else {
      var n := |pairs| - 1;
      StoreFirst(p, pairs[..n], cookies);
      assert all[..|pairs|] == [p] + pairs[..n];
    }
  }

  lemma {:induction false} ReadAllStores(parts: seq<string>, pairs: seq<Pair>, cookies: map<string, string>)
    requires |parts| == |pairs|
    requires forall i :: 0 <= i < |parts| ==> Read(parts[i]) == pairs[i] && pairs[i].key != ""
    ensures ReadAll(parts, cookies) == Store(Readable(pairs), cookies)
  {
    if |parts| > 0 && Decodes(pairs[0]) {
      var value := PercentEncoding.Decode(pairs[0].text).value;
      ReadAllStores(parts[1..], pairs[1..], Assign(cookies, pairs[0].key, value));
      StoreFirst(pairs[0], Readable(pairs[1..]), cookies);
    }
  }

  lemma {:induction false} StoredLookup(pairs: seq<Pair>, key: string)
    requires forall i :: 0 <= i < |pairs| ==> Decodes(pairs[i])
    ensures Get(Store(pairs, map[]), key) == Lookup(pairs, key)
  {
    if |pairs| > 0 {
      StoredLookup(pairs[..|pairs| - 1], key);
    }
  }

  // ---------------------------------------------------------------- main results

  /**
   * Parsing the header of any list of writable pairs: at every key it gives the value of the last pair with that
   * key among the pairs before the first one that does not decode, and None at other keys.
   */
  lemma ParseReadsHeader(pairs: seq<Pair>, key: string)
    requires forall i :: 0 <= i < |pairs| ==> Writable(pairs[i])
    ensures Get(Parsed(Header(pairs)), key) == Lookup(Readable(pairs), key)
  {
    if |pairs| == 0 {
      EmptyHeader();
    } else {
      assert "" + Header(pairs) == Header(pairs);
      SplitHeader(pairs, "");
      ReadParts(pairs, "");
      ReadAllStores(Parts(pairs, ""), pairs, map[]);
      StoredLookup(Readable(pairs), key);
    }
  }

  lemma EmptyHeader()
    ensures Parsed("") == map[]
  {
    assert Trim("") == "";
    assert Read("").key == "";
  }

  /** Nothing is lost unless a pair fails to decode: the whole list counts exactly when every pair decodes. */
  lemma {:induction false} AllReadableExactlyWhenAllDecode(pairs: seq<Pair>)
    ensures Readable(pairs) == pairs <==> forall i :: 0 <= i < |pairs| ==> Decodes(pairs[i])
  {
    if |pairs| > 0 {
      AllReadableExactlyWhenAllDecode(pairs[1..]);
      assert pairs == [pairs[0]] + pairs[1..];
      if Decodes(pairs[0]) && Readable(pairs) == pairs {
        assert Readable(pairs[1..]) == pairs[1..];
      }
    }
  }

  /** Percent-encoded values: any text at all, under any clean keys. */
  function Encoded(keys: seq<string>, values: seq<string>): (pairs: seq<Pair>)
    requires |keys| == |values|
    ensures |pairs| == |keys|
    ensures forall i :: 0 <= i < |pairs| ==> pairs[i] == Pair(keys[i], PercentEncoding.Encode(values[i]))
  {
    if |keys| == 0 then []
    else Encoded(keys[..|keys| - 1], values[..|keys| - 1]) + [Pair(keys[|keys| - 1], PercentEncoding.Encode(values[|keys| - 1]))]
  }

  lemma EncodedIsWritable(key: string, value: string)
    requires CleanKey(key)
    ensures Writable(Pair(key, PercentEncoding.Encode(value)))
  {
    PercentEncoding.EncodedIsSafe(value);
    var text := PercentEncoding.Encode(value);
    assert forall c :: PercentEncoding.Unreserved(c) || c == '%' ==> c != ';' && !Blank(c);
    if |text| > 0 {
      assert text[|text| - 1] in text;
    }
  }

  /** The last value under a key. */
  function LastValue(keys: seq<string>, values: seq<string>, key: string): Option<string>
    requires |keys| == |values|
  {
    if |keys| == 0 then None
    else
      var n := |keys| - 1;
      if keys[n] == key then Some(values[n]) else LastValue(keys[..n], values[..n], key)
  }

  lemma {:induction false} LookupEncoded(keys: seq<string>, values: seq<string>, key: string)
    requires |keys| == |values| && key != PROTO
    ensures Lookup(Encoded(keys, values), key) == LastValue(keys, values, key)
  {
    if |keys| > 0 {
      var n := |keys| - 1;
      LookupEncoded(keys[..n], values[..n], key);
      PercentEncoding.RoundTrip(values[n]);
      assert Encoded(keys, values)[..n] == Encoded(keys[..n], values[..n]);
    }
  }

  /** The round trip: encoded values come back as the map in which the last value of a key wins. */
  lemma CookieRoundTrip(keys: seq<string>, values: seq<string>, key: string)
    requires |keys| == |values| && key != PROTO
    requires forall i :: 0 <= i < |keys| ==> CleanKey(keys[i])
    ensures Get(Parsed(Header(Encoded(keys, values))), key) == LastValue(keys, values, key)
  {
    var pairs := Encoded(keys, values);
    forall i | 0 <= i < |pairs|
      ensures Writable(pairs[i]) && Decodes(pairs[i])
    {
      EncodedIsWritable(keys[i], values[i]);
      PercentEncoding.RoundTrip(values[i]);
    }
    ParseReadsHeader(pairs, key);
    AllReadableExactlyWhenAllDecode(pairs);
    LookupEncoded(keys, values, key);
  }

  lemma {:induction false} ReadAllKeysAreClean(parts: seq<string>, cookies: map<string, string>, key: string)
    requires forall i :: 0 <= i < |parts| ==> ';' !in parts[i]
    requires key in ReadAll(parts, cookies) && key !in cookies
    ensures CleanKey(key) && key != PROTO
    decreases |parts|
  {
    var pair := Read(parts[0]);
    var value := PercentEncoding.Decode(pair.text);
    if pair.key == "" {
      ReadAllKeysAreClean(parts[1..], cookies, key);
    } else if key in Assign(cookies, pair.key, value.value) {
      ReadKeyIsClean(parts[0]);
    } else {
      ReadAllKeysAreClean(parts[1..], Assign(cookies, pair.key, value.value), key);
    }
  }

  lemma TrimKeepsChars(s: string, c: char)
    requires c in Trim(s)
    ensures c in s
  {
    var start := TrimStart(s);
    assert c in start;
  }

  lemma ReadKeyIsClean(part: string)
    requires ';' !in part && Read(part).key != ""
    ensures CleanKey(Read(part).key)
  {
    var text := Trim(part);
    if ';' in text {
      TrimKeepsChars(part, ';');
    }
    SplitPartsHaveNoSeparator(text, '=');
    FirstFieldIsPrefix(text, '=');
  }

  lemma {:induction false} FirstFieldIsPrefix(s: string, sep: char)
    ensures Split(s, sep)[0] <= s
  {
    if |s| > 0 {
      FirstFieldIsPrefix(s[1..], sep);
    }
  }

  /** Whatever the header, no key of the result holds a separator or starts with a blank. */
  lemma ParsedKeysAreClean(header: string, key: string)
    requires key in Parsed(header)
    ensures CleanKey(key) && key != PROTO
  {
    SplitPartsHaveNoSeparator(header, ';');
    ReadAllKeysAreClean(Split(header, ';'), map[], key);
  }

  /** Any value written under a key is found again exactly when the key is clean and not the prototype's. */
  lemma {:induction false} SurvivesExactlyWhenClean(key: string, value: string)
    ensures Get(Parsed(key + "=" + PercentEncoding.Encode(value)), key) == Some(value) <==> CleanKey(key) && key != PROTO
  {
    var pairs := Encoded([key], [value]);
    assert Header(pairs) == key + "=" + PercentEncoding.Encode(value);
    hide Parsed, Encoded, CleanKey, PercentEncoding.Encode, Header;
    if key in Parsed(Header(pairs)) {
      ParsedKeysAreClean(Header(pairs), key);
    }
    if CleanKey(key) && key != PROTO {
      CookieRoundTrip([key], [value], key);
      assert LastValue([key], [value], key) == Some(value);
    }
  }
}
