/** The form parser and printer of the sanitizing middleware. */
module Sanitize {
  import opened Prelude
  import opened Strings

  /** The escapes the parser knows, in the order it replaces them. */
  const ESCAPES: seq<(string, char)> := [
    ("%20", ' '), ("%40", '@'), ("%2F", '/'), ("%3A", ':'),
    ("%3D", '='), ("%26", '&'), ("%3F", '?'), ("%25", '%')
  ]

  predicate IsCode(s: string) {
    |s| == 3 && s[0] == '%' && s[1] != '%' && s[2] != '%'
  }

  /** Distinct codes for distinct characters, the last of them the percent sign. */
  predicate IsTable(es: seq<(string, char)>) {
    && (forall i :: 0 <= i < |es| ==> IsCode(es[i].0))
    && (forall i, j :: 0 <= i < j < |es| ==> es[i].0 != es[j].0 && es[i].1 != es[j].1)
    && (es != [] ==> es[|es| - 1].1 == '%')
  }

  predicate NoPlusIn(es: seq<(string, char)>) {
    forall i :: 0 <= i < |es| ==> '+' !in es[i].0 && es[i].1 != '+'
  }

  lemma CodesDiffer()
    ensures forall i, j :: 0 <= i < j < |ESCAPES| ==> ESCAPES[i].0 != ESCAPES[j].0 && ESCAPES[i].1 != ESCAPES[j].1
  {
    assert forall i :: 0 <= i < |ESCAPES| ==> |ESCAPES[i].0| == 3;
    forall i, j | 0 <= i < j < |ESCAPES|
      ensures ESCAPES[i].0[1] != ESCAPES[j].0[1] || ESCAPES[i].0[2] != ESCAPES[j].0[2]
    {
    }
  }

  lemma EscapesAreATable()
    ensures IsTable(ESCAPES) && NoPlusIn(ESCAPES)
  {
    CodesDiffer();
    forall i | 0 <= i < |ESCAPES|
      ensures IsCode(ESCAPES[i].0) && '+' !in ESCAPES[i].0 && ESCAPES[i].1 != '+'
    {
    }
  }

  function Apply(s: string, es: seq<(string, char)>): string
    requires forall i :: 0 <= i < |es| ==> IsCode(es[i].0)
    decreases |es|
  {
    if es == [] then s
    else
      assert IsCode(es[0].0);
      Apply(ReplaceAll(s, es[0].0, [es[0].1]), es[1..])
  }

  function Decode(s: string): string {
    Apply(ReplaceAll(s, "+", " "), ESCAPES)
  }

  /** Percent-encoding of a single character over a table of codes. */
  function Code(c: char, es: seq<(string, char)>): string {
    if es == [] then [c] else if es[0].1 == c then es[0].0 else Code(c, es[1..])
  }

  function PercentEncode(s: string, es: seq<(string, char)>): string {
    if s == "" then "" else Code(s[0], es) + PercentEncode(s[1..], es)
  }

  // -------- Decoding undoes percent-encoding

  lemma {:induction false} CodeIsATokenOfTheTable(c: char, es: seq<(string, char)>)
    requires IsTable(es)
    ensures Code(c, es) == [c] || exists i :: 0 <= i < |es| && Code(c, es) == es[i].0
    ensures c == '%' && es != [] ==> IsCode(Code(c, es))
  {
    if es != [] && es[0].1 != c {
      CodeIsATokenOfTheTable(c, es[1..]);
      if Code(c, es) != [c] {
        var i :| 0 <= i < |es[1..]| && Code(c, es[1..]) == es[1..][i].0;
        assert Code(c, es) == es[i + 1].0;
      }
    }
  }

  lemma PassSingle(c: char, rest: string, code: string, d: char)
    requires IsCode(code) && c != '%'
    ensures ReplaceAll([c] + rest, code, [d]) == [c] + ReplaceAll(rest, code, [d])
  {
    var s := [c] + rest;
    assert s[1..] == rest;
    if |s| >= 3 {
      assert s[..3][0] == c;
    }
  }

  lemma PassCode(token: string, rest: string, code: string, d: char)
    requires IsCode(code) && IsCode(token)
    ensures ReplaceAll(token + rest, code, [d])
         == (if token == code then [d] else token) + ReplaceAll(rest, code, [d])
  {
    var s := token + rest;
    assert s[..3] == token && s[3..] == rest;
    if token != code {
      PassSingle(token[1], [token[2]] + rest, code, d);
      PassSingle(token[2], rest, code, d);
      assert s[1..] == [token[1]] + ([token[2]] + rest);
      var r := ReplaceAll(rest, code, [d]);
      assert [token[0]] + ([token[1]] + ([token[2]] + r)) == token + r;
    }
  }

  /** One replacement takes the encoding over a table to the encoding over the rest of the table. */
  lemma {:induction false} ReplacementPeelsTheTable(s: string, es: seq<(string, char)>)
    requires IsTable(es) && es != []
    ensures ReplaceAll(PercentEncode(s, es), es[0].0, [es[0].1]) == PercentEncode(s, es[1..])
  {
    if s != "" {
      var c, rest := s[0], PercentEncode(s[1..], es);
      ReplacementPeelsTheTable(s[1..], es);
      CodeIsATokenOfTheTable(c, es);
      if IsCode(Code(c, es)) {
        PassCode(Code(c, es), rest, es[0].0, es[0].1);
        PeeledCode(c, es);
      } else {
        PassSingle(c, rest, es[0].0, es[0].1);
      }
    }
  }

  lemma PeeledCode(c: char, es: seq<(string, char)>)
    requires IsTable(es) && es != [] && IsCode(Code(c, es))
    ensures Code(c, es[1..]) == if Code(c, es) == es[0].0 then [es[0].1] else Code(c, es)
  {
    CodeIsATokenOfTheTable(c, es[1..]);
    if es[0].1 == c {
      NoCode(c, es[1..]);
    }
  }

  lemma {:induction false} NoCode(c: char, es: seq<(string, char)>)
    requires forall e <- es :: e.1 != c
    ensures Code(c, es) == [c]
  {
    if es != [] {
      NoCode(c, es[1..]);
    }
  }

  lemma {:induction false} ApplyUndoesEncoding(s: string, es: seq<(string, char)>)
    requires IsTable(es)
    ensures Apply(PercentEncode(s, es), es) == s
  {
    if es == [] {
      EncodingOverNothing(s);
    } else {
      ReplacementPeelsTheTable(s, es);
      ApplyUndoesEncoding(s, es[1..]);
    }
  }

  lemma {:induction false} EncodingOverNothing(s: string)
    ensures PercentEncode(s, []) == s
  {
    if s != "" {
      EncodingOverNothing(s[1..]);
    }
  }

  lemma AnEncodedPlusIsAPlus(s: string, es: seq<(string, char)>)
    requires '+' in PercentEncode(s, es)
    requires NoPlusIn(es)
    ensures '+' in s
  {
    if '+' !in Code(s[0], es) {
      AnEncodedPlusIsAPlus(s[1..], es);
    } else {
      PlusIsNoCode(s[0], es);
    }
  }

  lemma {:induction false} PlusIsNoCode(c: char, es: seq<(string, char)>)
    requires '+' in Code(c, es)
    requires NoPlusIn(es)
    ensures c == '+'
  {
    if es != [] {
      PlusIsNoCode(c, es[1..]);
    }
  }

  /** A decoded value never contains a plus sign. */
  lemma {:induction false} ApplyBringsNoPlus(s: string, es: seq<(string, char)>)
    requires '+' !in s
    requires forall i :: 0 <= i < |es| ==> IsCode(es[i].0) && es[i].1 != '+'
    ensures '+' !in Apply(s, es)
    decreases |es|
  {
    if es != [] {
      ReplaceBringsNothingElse(s, es[0].0, [es[0].1], '+');
      ApplyBringsNoPlus(ReplaceAll(s, es[0].0, [es[0].1]), es[1..]);
    }
  }

  lemma DecodedHasNoPlus(s: string)
    ensures '+' !in Decode(s)
  {
    ReplaceRemoves(s, '+', ' ');
    ApplyBringsNoPlus(ReplaceAll(s, "+", " "), ESCAPES);
  }

  lemma WithoutPlus(s: string)
    requires '+' !in s
    ensures Decode(s) == Apply(s, ESCAPES)
  {
    CharacterOccursIffThere(s, '+');
    ReplaceNothing(s, "+", " ");
  }

  lemma EncodingAddsNoPlus(v: string, es: seq<(string, char)>)
    requires '+' !in v && NoPlusIn(es)
    ensures '+' !in PercentEncode(v, es)
  {
    if '+' in PercentEncode(v, es) {
      AnEncodedPlusIsAPlus(v, es);
    }
  }

  lemma DecodeUndoesEncoding(v: string)
    requires '+' !in v
    ensures Decode(PercentEncode(v, ESCAPES)) == v
  {
    EscapesAreATable();
    EncodingAddsNoPlus(v, ESCAPES);
    WithoutPlus(PercentEncode(v, ESCAPES));
    ApplyUndoesEncoding(v, ESCAPES);
  }

  // -------- Percent-encoding by the codes of the characters

  function HexDigit(n: nat): char
    requires n < 16
  {
    "0123456789ABCDEF"[n]
  }

  /** A percent sign and the two hexadecimal digits of the character (section 2.1 of RFC 3986), for eight of them. */
  function Escape(c: char): string {
    if c in " @/:=&?%" then ['%', HexDigit(c as int / 16), HexDigit(c as int % 16)] else [c]
  }

  function EscapeAll(s: string): string {
    if s == "" then "" else Escape(s[0]) + EscapeAll(s[1..])
  }

  lemma {:induction false} CodeIsTheFirst(c: char, es: seq<(string, char)>, n: nat)
    requires n <= |es| && forall i :: 0 <= i < n ==> es[i].1 != c
    ensures n == |es| ==> Code(c, es) == [c]
    ensures n < |es| && es[n].1 == c ==> Code(c, es) == es[n].0
    decreases n
  {
    if n > 0 {
      CodeIsTheFirst(c, es[1..], n - 1);
    }
  }

  lemma NthCode(n: nat)
    requires n < 8
    ensures var c := " @/:=&?%"[n];
      ESCAPES[n].1 == c && ESCAPES[n].0 == ['%', HexDigit(c as int / 16), HexDigit(c as int % 16)]
  {
  }

  lemma CodesAreHexadecimal(c: char)
    ensures Code(c, ESCAPES) == Escape(c)
  {
    hide HexDigit;
    var chars := " @/:=&?%";
    forall n | 0 <= n < 8
      ensures ESCAPES[n].1 == chars[n] && ESCAPES[n].0 == ['%', HexDigit(chars[n] as int / 16), HexDigit(chars[n] as int % 16)]
    {
      NthCode(n);
    }
    if c in chars {
      var n :| 0 <= n < 8 && chars[n] == c;
      CodesDiffer();
      CodeIsTheFirst(c, ESCAPES, n);
    } else {
      CodeIsTheFirst(c, ESCAPES, 8);
    }
  }

  lemma {:induction false} TableIsPercentEncoding(s: string)
    ensures PercentEncode(s, ESCAPES) == EscapeAll(s)
  {
    if s != "" {
      CodesAreHexadecimal(s[0]);
      TableIsPercentEncoding(s[1..]);
    }
  }

  /** The decoder inverts percent-encoding of the eight characters on exactly the values without a plus sign. */
  lemma DecodeUndoesEncodingIff(v: string)
    ensures Decode(EscapeAll(v)) == v <==> '+' !in v
  {
    TableIsPercentEncoding(v);
    DecodedHasNoPlus(PercentEncode(v, ESCAPES));
    if '+' !in v {
      DecodeUndoesEncoding(v);
    }
  }

  // -------- Which values the decoder leaves alone

  ghost predicate NoCodeOccurs(v: string, es: seq<(string, char)>) {
    forall i :: 0 <= i < |es| ==> !Occurs(v, es[i].0)
  }

  lemma {:induction false} ApplyNeverLengthens(s: string, es: seq<(string, char)>)
    requires forall i :: 0 <= i < |es| ==> IsCode(es[i].0)
    ensures |Apply(s, es)| <= |s|
    decreases |es|
  {
    if es != [] {
      ReplaceNeverLengthens(s, es[0].0, [es[0].1]);
      ApplyNeverLengthens(ReplaceAll(s, es[0].0, [es[0].1]), es[1..]);
    }
  }

  lemma {:induction false} ApplyKeepsIff(s: string, es: seq<(string, char)>)
    requires forall i :: 0 <= i < |es| ==> IsCode(es[i].0)
    ensures Apply(s, es) == s <==> NoCodeOccurs(s, es)
  {
    if es != [] {
      var code, c := es[0].0, [es[0].1];
      if Occurs(s, code) {
        ReplaceShortens(s, code, c);
        ApplyNeverLengthens(ReplaceAll(s, code, c), es[1..]);
      } else {
        ReplaceNothing(s, code, c);
        ApplyKeepsIff(s, es[1..]);
        assert es == [es[0]] + es[1..];
      }
    }
  }

  lemma DecodeKeepsIff(v: string)
    ensures Decode(v) == v <==> '+' !in v && NoCodeOccurs(v, ESCAPES)
  {
    if '+' in v {
      DecodedHasNoPlus(v);
    } else {
      WithoutPlus(v);
      EscapesAreATable();
      ApplyKeepsIff(v, ESCAPES);
    }
  }

  lemma DecodeNeverLengthens(v: string)
    ensures |Decode(v)| <= |v|
  {
    ReplaceNeverLengthens(v, "+", " ");
    ApplyNeverLengthens(ReplaceAll(v, "+", " "), ESCAPES);
  }

  // -------- The parser and the printer

  function KeyOf(pair: string): string {
    SplitOnce(pair, '=')[0]
  }

  function ValueOf(pair: string): string {
    var parts := SplitOnce(pair, '=');
    if |parts| == 2 then Decode(parts[1]) else ""
  }

  /** What one segment gives to key k. */
  function Field(segment: string, k: string): seq<string> {
    if segment != "" && KeyOf(segment) == k then [ValueOf(segment)] else []
  }

  /** The values a list of segments gives to key k, in order. */
  function Fields(segments: seq<string>, k: string): seq<string> {
    FlatMap(FieldFor(k), segments)
  }

  function FieldFor(k: string): string -> seq<string> {
    (segment: string) => Field(segment, k)
  }

  /** What parsing a query means: each key holds the values its segments give it, in their order. */
  ghost predicate IsParse(values: map<string, seq<string>>, query: string) {
    Holds(values, Split(query, '&'))
  }

  ghost predicate Holds(values: map<string, seq<string>>, segments: seq<string>) {
    forall k :: HoldsFor(values, k, Fields(segments, k))
  }

  predicate HoldsFor(values: map<string, seq<string>>, k: string, fields: seq<string>) {
    (k in values <==> fields != []) && (k in values ==> values[k] == fields)
  }

  function PairsOf(key: string, vals: seq<string>): seq<string> {
    if vals == [] then [] else [key + "=" + vals[0]] + PairsOf(key, vals[1..])
  }

  /** The printed pairs, key by key. */
  function Pairs(values: map<string, seq<string>>, order: seq<string>): seq<string>
    requires forall k <- order :: k in values
  {
    if order == [] then [] else PairsOf(order[0], values[order[0]]) + Pairs(values, order[1..])
  }

  /** An order in which a map may be iterated. */
  ghost predicate IsOrder(order: seq<string>, values: map<string, seq<string>>) {
    NoDup(order) && forall k :: k in order <==> k in values
  }

  lemma {:induction false} PairsOfSum(key: string, vals: seq<string>, v: string)
    ensures PairsOf(key, vals + [v]) == PairsOf(key, vals) + [key + "=" + v]
  {
    if vals == [] {
      assert vals + [v] == [v];
    } else {
      PairsOfSum(key, vals[1..], v);
      assert (vals + [v])[1..] == vals[1..] + [v];
    }
  }

  lemma {:induction false} PairsOfOneMoreKey(values: map<string, seq<string>>, order: seq<string>, key: string)
    requires key in values && forall k <- order :: k in values
    ensures Pairs(values, order + [key]) == Pairs(values, order) + PairsOf(key, values[key])
  {
    if order == [] {
      assert order + [key] == [key];
    } else {
      var first, rest, last := PairsOf(order[0], values[order[0]]), order[1..], PairsOf(key, values[key]);
      calc {
        Pairs(values, order + [key]);
        { assert (order + [key])[0] == order[0] && (order + [key])[1..] == rest + [key]; }
        first + Pairs(values, rest + [key]);
        { PairsOfOneMoreKey(values, rest, key); }
        first + (Pairs(values, rest) + last);
        first + Pairs(values, rest) + last;
      }
    }
  }

  lemma ApplyStep(s: string, n: nat)
    requires n < |ESCAPES|
    ensures Apply(s, ESCAPES[n..]) == Apply(ReplaceAll(s, ESCAPES[n].0, [ESCAPES[n].1]), ESCAPES[n + 1..])
  {
    assert ESCAPES[n..][1..] == ESCAPES[n + 1..] && ESCAPES[n..][0] == ESCAPES[n];
  }

  method DecodeValue(raw: string) returns (value: string)
    ensures value == Decode(raw)
  {
    value := ReplaceAll(raw, "+", " ");
    assert ESCAPES[0..] == ESCAPES;
    ApplyStep(value, 0);
    value := ReplaceAll(value, "%20", " ");
    ApplyStep(value, 1);
    value := ReplaceAll(value, "%40", "@");
    ApplyStep(value, 2);
    value := ReplaceAll(value, "%2F", "/");
    ApplyStep(value, 3);
    value := ReplaceAll(value, "%3A", ":");
    ApplyStep(value, 4);
    value := ReplaceAll(value, "%3D", "=");
    ApplyStep(value, 5);
    value := ReplaceAll(value, "%26", "&");
    ApplyStep(value, 6);
    value := ReplaceAll(value, "%3F", "?");
    ApplyStep(value, 7);
    value := ReplaceAll(value, "%25", "%");
  }

  function WithField(values: map<string, seq<string>>, pair: string): map<string, seq<string>> {
    if pair == "" then values
    else
      var key := KeyOf(pair);
      values[key := (if key in values then values[key] else []) + [ValueOf(pair)]]
  }

  lemma HoldsForOneMore(before: map<string, seq<string>>, after: map<string, seq<string>>, segments: seq<string>,
                        n: nat)
    requires n < |segments| && Holds(before, segments[..n])
    requires after == WithField(before, segments[n])
    ensures Holds(after, segments[..n + 1])
  {
    var seen, next := segments[..n], segments[..n + 1];
    assert next == seen + [segments[n]];
    forall k
      ensures HoldsFor(after, k, Fields(next, k))
    {
      assert HoldsFor(before, k, Fields(seen, k));
      FlatMapOfSum(FieldFor(k), seen, [segments[n]]);
      assert Fields([segments[n]], k) == Field(segments[n], k);
    }
  }

  lemma NothingDecodesToNothing()
    ensures Decode("") == ""
  {
    DecodeNeverLengthens("");
  }

  method ParseQuery(query: string) returns (values: map<string, seq<string>>)
    ensures IsParse(values, query)
  {
    values := map[];
    var segments := Split(query, '&');
    var n := 0;
    while n < |segments|
      invariant 0 <= n <= |segments|
      invariant Holds(values, segments[..n])
    {
      var pair := segments[n];
      ghost var before := values;
      if pair != "" {
        var parts := SplitOnce(pair, '=');
        var key := parts[0];
        var value := "";
        if |parts| == 2 {
          value := parts[1];
        }
        value := DecodeValue(value);
        NothingDecodesToNothing();
        values := values[key := (if key in values then values[key] else []) + [value]];
      }
      HoldsForOneMore(before, values, segments, n);
      n := n + 1;
    }
    assert segments[..n] == segments;
  }

  method EncodeFormValues(values: map<string, seq<string>>) returns (query: string)
    ensures exists order :: IsOrder(order, values) && query == Join(Pairs(values, order), '&')
  {
    var pairs: seq<string> := [];
    ghost var order := [];
    var todo := values.Keys;
    while todo != {}
      invariant todo <= values.Keys && NoDup(order)
      invariant forall k :: k in order <==> k in values && k !in todo
      invariant pairs == Pairs(values, order)
      decreases |todo|
    {
      var key :| key in todo;
      var vals := values[key];
      var n := 0;
      while n < |vals|
        invariant 0 <= n <= |vals|
        invariant pairs == Pairs(values, order) + PairsOf(key, vals[..n])
      {
        assert vals[..n + 1] == vals[..n] + [vals[n]];
        PairsOfSum(key, vals[..n], vals[n]);
        pairs := pairs + [key + "=" + vals[n]];
        n := n + 1;
      }
      assert vals[..n] == vals;
      PairsOfOneMoreKey(values, order, key);
      order := order + [key];
      todo := todo - {key};
    }
    query := Join(pairs, '&');
    assert IsOrder(order, values);
  }

  // -------- When the parser undoes the printer

  /** What a list of printed pairs gives to key k, each split at its ampersands. */
  function Given(pairs: seq<string>, k: string): seq<string> {
    FlatMap(GivenFor(k), pairs)
  }

  function GivenFor(k: string): string -> seq<string> {
    (pair: string) => Fields(Split(pair, '&'), k)
  }

  lemma {:induction false} ParsedJoin(pairs: seq<string>, k: string)
    ensures Fields(Split(Join(pairs, '&'), '&'), k) == Given(pairs, k)
  {
    if pairs == [] {
      assert Fields([""], k) == Field("", k) + Fields([], k);
    } else if |pairs| == 1 {
      assert pairs == [pairs[0]];
      FlatMapOfOne(GivenFor(k), pairs[0]);
    } else {
      var rest := Join(pairs[1..], '&');
      SplitOfSum(pairs[0], rest, '&');
      FlatMapOfSum(FieldFor(k), Split(pairs[0], '&'), Split(rest, '&'));
      ParsedJoin(pairs[1..], k);
    }
  }

  predicate CleanKey(k: string) {
    '=' !in k && '&' !in k
  }

  /** A value the parser gives back as it was printed. */
  ghost predicate CleanValue(v: string) {
    '&' !in v && '+' !in v && NoCodeOccurs(v, ESCAPES)
  }

  lemma CleanValueIff(v: string)
    ensures CleanValue(v) <==> Decode(Split(v, '&')[0]) == v
  {
    FirstPart(v, '&');
    DecodeNeverLengthens(Split(v, '&')[0]);
    if '&' !in v {
      SplitWithoutSeparator(v, '&');
      DecodeKeepsIff(v);
    }
  }

  /** A pair with a clean key always gives the key the decoded beginning of its value; the rest is split off. */
  lemma GivenByOnePair(key: string, v: string, k: string)
    requires CleanKey(key)
    ensures Fields(Split(key + "=" + v, '&'), k)
         == (if k == key then [Decode(Split(v, '&')[0])] else []) + Fields(Split(v, '&')[1..], k)
  {
    var parts := Split(v, '&');
    SplitAfterPrefix(key + "=", v, '&');
    SplitOnceFindsTheFirst(key, parts[0], '=');
    var first := key + "=" + parts[0];
    assert Field(first, k) == if k == key then [Decode(parts[0])] else [];
    assert ([first] + parts[1..])[1..] == parts[1..];
  }

  lemma {:induction false} SplitAfterPrefix(p: string, s: string, c: char)
    requires c !in p
    ensures Split(p + s, c) == [p + Split(s, c)[0]] + Split(s, c)[1..]
  {
    var parts := Split(s, c);
    if p == "" {
      assert p + s == s && p + parts[0] == parts[0];
    } else {
      SplitAfterPrefix(p[1..], s, c);
      assert p == [p[0]] + p[1..];
      assert p + s == [p[0]] + (p[1..] + s);
      SplitStep(p[0], p[1..] + s, c);
      assert p + parts[0] == [p[0]] + (p[1..] + parts[0]);
    }
  }

  lemma GivenByCleanPair(key: string, v: string, k: string)
    requires CleanKey(key) && CleanValue(v)
    ensures GivenFor(k)(key + "=" + v) == if k == key then [v] else []
  {
    GivenByOnePair(key, v, k);
    CleanValueIff(v);
    SplitWithoutSeparator(v, '&');
  }

  lemma {:induction false} CleanPairsGiveTheirValues(key: string, vals: seq<string>, k: string)
    requires CleanKey(key) && forall v <- vals :: CleanValue(v)
    ensures Given(PairsOf(key, vals), k) == if k == key then vals else []
  {
    if vals != [] {
      var v, rest := vals[0], PairsOf(key, vals[1..]);
      GivenByCleanPair(key, v, k);
      CleanPairsGiveTheirValues(key, vals[1..], k);
      FlatMapOfSum(GivenFor(k), [key + "=" + v], rest);
      FlatMapOfOne(GivenFor(k), key + "=" + v);
      assert vals == [v] + vals[1..];
    }
  }

  lemma {:induction false} CleanMapGivesItsValues(values: map<string, seq<string>>, order: seq<string>, k: string)
    requires NoDup(order)
    requires forall key <- order :: key in values && CleanKey(key) && forall v <- values[key] :: CleanValue(v)
    ensures Given(Pairs(values, order), k) == if k in order then values[k] else []
  {
    if order != [] {
      var key := order[0];
      FlatMapOfSum(GivenFor(k), PairsOf(key, values[key]), Pairs(values, order[1..]));
      CleanPairsGiveTheirValues(key, values[key], k);
      CleanMapGivesItsValues(values, order[1..], k);
    }
  }

  /** Every pair gives its key at least one value, so giving no more than the values means giving exactly them. */
  lemma {:induction false} OwnPairs(key: string, vals: seq<string>)
    requires CleanKey(key)
    ensures |Given(PairsOf(key, vals), key)| >= |vals|
    ensures Given(PairsOf(key, vals), key) == vals ==> forall v <- vals :: CleanValue(v)
  {
    if vals != [] {
      var v, rest := vals[0], vals[1..];
      GivenByOnePair(key, v, key);
      OwnPairs(key, rest);
      var given := Given(PairsOf(key, rest), key);
      var extra := Fields(Split(v, '&')[1..], key);
      assert PairsOf(key, vals)[1..] == PairsOf(key, rest);
      assert Given(PairsOf(key, vals), key) == [Decode(Split(v, '&')[0])] + extra + given;
      if [Decode(Split(v, '&')[0])] + extra + given == vals {
        assert extra == [];
        Aligned(Decode(Split(v, '&')[0]), given, vals);
        CleanValueIff(v);
      }
    }
  }

  lemma Aligned(x: string, xs: seq<string>, vals: seq<string>)
    requires [x] + [] + xs == vals
    ensures x == vals[0] && xs == vals[1..]
  {
    assert vals == [x] + xs;
  }

  lemma {:induction false} AllPairs(values: map<string, seq<string>>, order: seq<string>, k: string)
    requires NoDup(order) && k in order
    requires forall key <- order :: key in values && CleanKey(key)
    ensures var given := Given(Pairs(values, order), k);
      && |given| >= |values[k]|
      && (|given| == |values[k]| ==> given == Given(PairsOf(k, values[k]), k))
  {
    var key, rest := order[0], order[1..];
    FlatMapOfSum(GivenFor(k), PairsOf(key, values[key]), Pairs(values, rest));
    if key == k {
      OwnPairs(k, values[k]);
    } else {
      AllPairs(values, rest, k);
    }
  }

  lemma {:induction false} GivenFieldHasASegment(segments: seq<string>, k: string)
    requires Fields(segments, k) != []
    ensures exists n :: 0 <= n < |segments| && KeyOf(segments[n]) == k
  {
    if Field(segments[0], k) == [] {
      GivenFieldHasASegment(segments[1..], k);
      var n :| 0 <= n < |segments[1..]| && KeyOf(segments[1..][n]) == k;
      assert KeyOf(segments[n + 1]) == k;
    }
  }

  lemma ParsedKeysAreClean(query: string, k: string)
    requires Fields(Split(query, '&'), k) != []
    ensures CleanKey(k)
  {
    GivenFieldHasASegment(Split(query, '&'), k);
    var n :| 0 <= n < |Split(query, '&')| && KeyOf(Split(query, '&')[n]) == k;
    PartsHaveNoSeparator(query, '&');
    FirstOfSplitOnce(Split(query, '&')[n], '=');
  }

  ghost predicate Printable(values: map<string, seq<string>>) {
    forall k <- values :: CleanKey(k) && values[k] != [] && forall v <- values[k] :: CleanValue(v)
  }

  /** The parser undoes the printer, under any iteration order, on exactly the printable maps. */
  lemma ParseUndoesPrintIff(values: map<string, seq<string>>, order: seq<string>,
                            parsed: map<string, seq<string>>)
    requires IsOrder(order, values) && IsParse(parsed, Join(Pairs(values, order), '&'))
    ensures parsed == values <==> Printable(values)
  {
    if parsed == values {
      PrintableFromRoundTrip(values, order);
    } else if Printable(values) {
      RoundTripFromPrintable(values, order, parsed);
    }
  }

  lemma RoundTripFromPrintable(values: map<string, seq<string>>, order: seq<string>,
                               parsed: map<string, seq<string>>)
    requires IsOrder(order, values) && IsParse(parsed, Join(Pairs(values, order), '&'))
    requires Printable(values)
    ensures parsed == values
  {
    var query := Join(Pairs(values, order), '&');
    forall k
      ensures k in parsed <==> k in values
      ensures k in parsed ==> parsed[k] == values[k]
    {
      assert HoldsFor(parsed, k, Fields(Split(query, '&'), k));
      ParsedJoin(Pairs(values, order), k);
      CleanMapGivesItsValues(values, order, k);
    }
  }

  lemma PrintableFromRoundTrip(values: map<string, seq<string>>, order: seq<string>)
    requires IsOrder(order, values) && IsParse(values, Join(Pairs(values, order), '&'))
    ensures Printable(values)
  {
    var query := Join(Pairs(values, order), '&');
    forall k <- values
      ensures CleanKey(k)
    {
      assert HoldsFor(values, k, Fields(Split(query, '&'), k));
      ParsedKeysAreClean(query, k);
    }
    forall k <- values
      ensures values[k] != [] && forall v <- values[k] :: CleanValue(v)
    {
      assert HoldsFor(values, k, Fields(Split(query, '&'), k));
      ParsedJoin(Pairs(values, order), k);
      AllPairs(values, order, k);
      OwnPairs(k, values[k]);
    }
  }

  /** A decoded ampersand is printed bare, so a map that holds one does not come back. */
  lemma AmpersandIsLost(order: seq<string>, parsed: map<string, seq<string>>)
    requires var values := map["a" := ["x&b"]];
      IsOrder(order, values) && IsParse(parsed, Join(Pairs(values, order), '&'))
    ensures parsed != map["a" := ["x&b"]]
  {
    var values := map["a" := ["x&b"]];
    ParseUndoesPrintIff(values, order, parsed);
    assert "x&b"[1] == '&' && values["a"][0] == "x&b" && "a" in values;
    assert !CleanValue(values["a"][0]);
  }
}
