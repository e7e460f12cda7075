/** The curb adapter's response-header parser: libcurl hands over the raw
    header section (start line, field lines, blank line, all CRLF-terminated)
    and `Response#headers` rebuilds an ordered hash of name => value from it.

    The pipeline is: drop the start line, chomp one trailing CRLF, cut the
    rest into CRLF-separated lines, split each line at its first ':', strip
    spaces and tabs from the value, bucket values under the first-seen
    spelling of a case-insensitively equal name, and join each bucket with
    ", ". Obsolete line folding is not recognised. A line without ':' (a
    blank line among them) makes the Ruby code call a method on `nil`, so the
    whole parse fails; so does an empty header section. */
module RawHeaders {

  import opened Wrappers
  import opened Text

  const CRLF: string := "\r\n"
  const ValueSeparator: string := ", "

  /** A header: one parsed line (the name as written and the stripped
      value), or one entry of the resulting hash. */
  datatype Field = Field(name: string, value: string)

  /** The array the hash collects under one key, in order of appearance. */
  datatype Bucket = Bucket(key: string, values: seq<string>)

  datatype HeaderError =
    | NoHeaderSection          // `"".split(CRLF, 2).last` is nil
    | MissingSeparator(line: nat)  // this field line has no ':'

  predicate CrlfAt(s: string, i: int) {
    0 <= i && i + 1 < |s| && s[i] == '\r' && s[i + 1] == '\n'
  }

  predicate NoCrlf(s: string) {
    forall i :: 0 <= i < |s| ==> !CrlfAt(s, i)
  }

  /** Index of the first CRLF in `s`. */
  function FirstCrlf(s: string): (r: Option<nat>)
    ensures r.Some? ==> CrlfAt(s, r.value) && forall j :: 0 <= j < r.value ==> !CrlfAt(s, j)
    ensures r.None? ==> NoCrlf(s)
  {
    if |s| < 2 then None
    else if s[0] == '\r' && s[1] == '\n' then Some(0)
    else match FirstCrlf(s[1..])
      case None =>
        assert forall j :: 0 < j < |s| ==> (CrlfAt(s, j) <==> CrlfAt(s[1..], j - 1));
        None
      case Some(i) =>
        assert forall j :: 0 < j < |s| ==> (CrlfAt(s, j) <==> CrlfAt(s[1..], j - 1));
        Some(i + 1)
  }

  /** `header_str.split(CRLF, 2).last`: everything after the start line, or
      the whole block when it has no CRLF; `None` (Ruby's nil) when the block
      is empty. */
  function HeaderSection(raw: string): (r: Option<string>)
    ensures r.None? <==> raw == []
    ensures r.Some? && !NoCrlf(raw) ==>
      exists start :: NoCrlf(start) && raw == start + CRLF + r.value
    ensures r.Some? && NoCrlf(raw) ==> r.value == raw
  {
    if raw == [] then None
    else match FirstCrlf(raw)
      case None => Some(raw)
      case Some(i) =>
        assert raw == raw[..i] + CRLF + raw[i + 2..];
        BeforeFirstCrlf(raw, i);
        Some(raw[i + 2..])
  }

  predicate EndsWithCrlf(s: string) {
    CrlfAt(s, |s| - 2)
  }

  /** `s.chomp(CRLF)`: removes one trailing CRLF, if there is one. */
  function Chomp(s: string): (r: string)
    ensures EndsWithCrlf(s) ==> r + CRLF == s
    ensures !EndsWithCrlf(s) ==> r == s
  {
    if EndsWithCrlf(s) then s[..|s| - 2] else s
  }

  /** `s.each_line(CRLF, chomp: true)`: the CRLF-separated lines, where a
      final CRLF ends the last line instead of opening an empty one. */
  function Lines(s: string): seq<string>
    decreases |s|
  {
    if s == [] then []
    else match FirstCrlf(s)
      case None => [s]
      case Some(i) => [s[..i]] + Lines(s[i + 2..])
  }

  lemma LinesStep(s: string, i: nat)
    requires s != [] && FirstCrlf(s) == Some(i)
    ensures Lines(s) == [s[..i]] + Lines(s[i + 2..])
    ensures s == s[..i] + CRLF + s[i + 2..]
  {
  }

  /** Nothing before the first CRLF is a CRLF. */
  lemma BeforeFirstCrlf(s: string, i: nat)
    requires FirstCrlf(s) == Some(i)
    ensures NoCrlf(s[..i])
  {
    forall j | 0 <= j < i ensures !CrlfAt(s[..i], j) {
      assert !CrlfAt(s, j);
    }
  }

  /** No line holds a CRLF. */
  lemma {:induction false} LinesHaveNoCrlf(s: string)
    ensures forall k :: 0 <= k < |Lines(s)| ==> NoCrlf(Lines(s)[k])
    decreases |s|
  {
    if s != [] && FirstCrlf(s).Some? {
      var i := FirstCrlf(s).value;
      LinesStep(s, i);
      BeforeFirstCrlf(s, i);
      LinesHaveNoCrlf(s[i + 2..]);
    }
  }

  lemma EndsWithCrlfAfter(line: string, rest: string)
    requires rest != []
    ensures EndsWithCrlf(line + CRLF + rest) <==> EndsWithCrlf(rest)
    ensures EndsWithCrlf(rest) ==> (line + CRLF + rest)[..|line + CRLF + rest| - 2] == line + CRLF + rest[..|rest| - 2]
  {
    var s := line + CRLF + rest;
    if |rest| >= 2 {
      assert s[|s| - 2] == rest[|rest| - 2] && s[|s| - 1] == rest[|rest| - 1];
      if EndsWithCrlf(rest) {
        assert s[..|s| - 2] == line + CRLF + rest[..|rest| - 2];
      }
    } else {
      assert s[|s| - 2] == '\n';
    }
  }

  /** Joining the lines with CRLF gives the input back, without the one CRLF
      that may end it. */
  lemma {:induction false} LinesRoundTrip(s: string)
    ensures Join(Lines(s), CRLF) == if EndsWithCrlf(s) then s[..|s| - 2] else s
    decreases |s|
  {
    if s != [] {
      match FirstCrlf(s)
      case None =>
        assert Lines(s) == [s];
      case Some(i) =>
        var rest := s[i + 2..];
        var line := s[..i];
        LinesStep(s, i);
        if rest == [] {
          assert Lines(s) == [line];
          assert EndsWithCrlf(s) && s[..|s| - 2] == line;
        } else {
          LinesRoundTrip(rest);
          assert Lines(rest) != [];
          JoinCons(line, Lines(rest), CRLF);
          EndsWithCrlfAfter(line, rest);
        }
    }
  }

  lemma {:induction false} JoinCons(p: string, parts: seq<string>, sep: string)
    requires |parts| > 0
    ensures Join([p] + parts, sep) == p + sep + Join(parts, sep)
    decreases |parts|
  {
    if |parts| == 1 {
      assert ([p] + parts)[..1] == [p];
    } else {
      var init := parts[..|parts| - 1];
      JoinCons(p, init, sep);
      assert ([p] + parts)[..|parts|] == [p] + init;
      assert parts[..|parts| - 1] == init;
    }
  }

  /** One field line, split at its first ':' only, the value cut at a line
      feed (the `$` of the value pattern) and stripped of spaces and tabs;
      the name is kept as written. `None` when the line has no ':'. */
  function ParseLine(line: string): (r: Option<Field>)
    ensures r.None? <==> ':' !in line
  {
    match SplitFirst(line, ':')
    case None => None
    case Some((name, rest)) => Some(Field(name, StripBlanks(FirstLine(rest))))
  }

  /** A line splits at its first ':' only, so the value may hold further
      colons; the name is kept verbatim and the value is the stripped text
      after the colon, up to a line feed. */
  lemma ParseLineSpec(line: string)
    requires ':' in line
    ensures ParseLine(line).Some?
    ensures var f := ParseLine(line).value;
      ':' !in f.name &&
      exists rest :: line == f.name + ":" + rest && f.value == StripBlanks(FirstLine(rest))
  {
    var (name, rest) := SplitFirst(line, ':').value;
    assert line == name + ":" + rest;
  }

  /** Every line parsed by `parse`, in order, or the first line it
      rejects. */
  function ParseEach(lines: seq<string>, parse: string -> Option<Field>): Result<seq<Field>, HeaderError>
    decreases |lines|
  {
    if lines == [] then Ok([])
    else match ParseEach(lines[..|lines| - 1], parse)
      case Err(e) => Err(e)
      case Ok(ps) =>
        match parse(lines[|lines| - 1])
        case None => Err(MissingSeparator(|lines| - 1))
        case Some(p) => Ok(ps + [p])
  }

  /** The parsed lines in order, or the first line that has no ':'. */
  function ParsePairs(lines: seq<string>): Result<seq<Field>, HeaderError> {
    ParseEach(lines, ParseLine)
  }

  lemma {:induction false} EachOkOnlyIf(lines: seq<string>, parse: string -> Option<Field>)
    ensures ParseEach(lines, parse).Ok? ==> forall i :: 0 <= i < |lines| ==> parse(lines[i]).Some?
    decreases |lines|
  {
    if lines != [] {
      var init := lines[..|lines| - 1];
      EachOkOnlyIf(init, parse);
      assert forall i :: 0 <= i < |init| ==> init[i] == lines[i];
    }
  }

  lemma {:induction false} EachOkIf(lines: seq<string>, parse: string -> Option<Field>)
    ensures (forall i :: 0 <= i < |lines| ==> parse(lines[i]).Some?) ==> ParseEach(lines, parse).Ok?
    decreases |lines|
  {
    if lines != [] {
      var init := lines[..|lines| - 1];
      EachOkIf(init, parse);
      assert forall i :: 0 <= i < |init| ==> init[i] == lines[i];
    }
  }

  /** A successful parse is the parse of all but the last line, followed
      by the pair of the last line. */
  lemma EachLast(lines: seq<string>, parse: string -> Option<Field>)
    requires lines != [] && ParseEach(lines, parse).Ok?
    ensures ParseEach(lines[..|lines| - 1], parse).Ok? && parse(lines[|lines| - 1]).Some?
    ensures ParseEach(lines, parse).value ==
      ParseEach(lines[..|lines| - 1], parse).value + [parse(lines[|lines| - 1]).value]
  {
  }

  /** One line of a successful parse: the result is as long as the input,
      and entry `i` is the pair of line `i`. */
  lemma {:induction false} EachAt(lines: seq<string>, parse: string -> Option<Field>, i: nat)
    requires ParseEach(lines, parse).Ok? && i < |lines|
    ensures |ParseEach(lines, parse).value| == |lines|
    ensures Some(ParseEach(lines, parse).value[i]) == parse(lines[i])
    decreases |lines|
  {
    var init := lines[..|lines| - 1];
    EachLast(lines, parse);
    var ps := ParseEach(init, parse).value;
    var p := parse(lines[|lines| - 1]).value;
    if init != [] {
      EachAt(init, parse, 0);
    }
    assert |ps| == |init|;
    if i < |init| {
      EachAt(init, parse, i);
      assert (ps + [p])[i] == ps[i];
      assert init[i] == lines[i];
    } else {
      assert (ps + [p])[i] == p;
    }
  }

  lemma ParsePairsContent(lines: seq<string>)
    ensures ParsePairs(lines).Ok? ==>
      |ParsePairs(lines).value| == |lines| &&
      forall i :: 0 <= i < |lines| ==> Some(ParsePairs(lines).value[i]) == ParseLine(lines[i])
  {
    if ParsePairs(lines).Ok? {
      if lines != [] {
        EachAt(lines, ParseLine, 0);
      }
      forall i | 0 <= i < |lines| ensures Some(ParsePairs(lines).value[i]) == ParseLine(lines[i]) {
        EachAt(lines, ParseLine, i);
      }
    }
  }

  /** The parse succeeds exactly when every line has a ':', and then each
      line yields its own pair, in order. */
  lemma ParsePairsOk(lines: seq<string>)
    ensures ParsePairs(lines).Ok? <==> forall i :: 0 <= i < |lines| ==> ':' in lines[i]
    ensures ParsePairs(lines).Ok? ==>
      |ParsePairs(lines).value| == |lines| &&
      forall i :: 0 <= i < |lines| ==> Some(ParsePairs(lines).value[i]) == ParseLine(lines[i])
  {
    EachOkOnlyIf(lines, ParseLine);
    EachOkIf(lines, ParseLine);
    ParsePairsContent(lines);
  }

  lemma {:induction false} EachErr(lines: seq<string>, parse: string -> Option<Field>)
    ensures ParseEach(lines, parse).Err? ==>
      && ParseEach(lines, parse).error.MissingSeparator?
      && ParseEach(lines, parse).error.line < |lines|
      && parse(lines[ParseEach(lines, parse).error.line]).None?
      && forall j :: 0 <= j < ParseEach(lines, parse).error.line ==> parse(lines[j]).Some?
    decreases |lines|
  {
    if lines != [] {
      var init := lines[..|lines| - 1];
      EachErr(init, parse);
      EachOkOnlyIf(init, parse);
      assert forall i :: 0 <= i < |init| ==> init[i] == lines[i];
    }
  }

  /** The error case: a failed parse names the first line without ':'. */
  lemma ParsePairsErr(lines: seq<string>)
    ensures ParsePairs(lines).Err? ==>
      && ParsePairs(lines).error.MissingSeparator?
      && ParsePairs(lines).error.line < |lines|
      && ':' !in lines[ParsePairs(lines).error.line]
      && forall j :: 0 <= j < ParsePairs(lines).error.line ==> ':' in lines[j]
  {
    EachErr(lines, ParseLine);
  }

  /** Once a prefix has failed, the whole parse fails with the same error. */
  lemma {:induction false} EachErrorPersists(lines: seq<string>, parse: string -> Option<Field>, n: nat)
    requires n <= |lines|
    requires ParseEach(lines[..n], parse).Err?
    ensures ParseEach(lines, parse) == ParseEach(lines[..n], parse)
    decreases |lines|
  {
    if n < |lines| {
      var init := lines[..|lines| - 1];
      assert init[..n] == lines[..n];
      EachErrorPersists(init, parse, n);
    } else {
      assert lines[..n] == lines;
    }
  }

  function NamesOf(ps: seq<Field>): (r: seq<string>)
    ensures |r| == |ps| && forall i :: 0 <= i < |ps| ==> r[i] == ps[i].name
  {
    seq(|ps|, i requires 0 <= i < |ps| => ps[i].name)
  }

  function KeysOf(bs: seq<Bucket>): (r: seq<string>)
    ensures |r| == |bs| && forall i :: 0 <= i < |bs| ==> r[i] == bs[i].key
  {
    seq(|bs|, i requires 0 <= i < |bs| => bs[i].key)
  }

  /** `names.find { _1.casecmp? name }` as an index: the first name equal to
      `name` ignoring case. */
  function FirstMatch(names: seq<string>, name: string): (r: Option<nat>)
    ensures r.Some? ==>
      r.value < |names| && SameIgnoringCase(names[r.value], name) &&
      forall j :: 0 <= j < r.value ==> !SameIgnoringCase(names[j], name)
    ensures r.None? ==> forall j :: 0 <= j < |names| ==> !SameIgnoringCase(names[j], name)
  {
    if names == [] then None
    else if SameIgnoringCase(names[0], name) then Some(0)
    else match FirstMatch(names[1..], name)
      case None => None
      case Some(i) => Some(i + 1)
  }

  /** One step of `each_with_object`: append the value to the bucket of a
      case-insensitively equal existing key, or open a new bucket at the end
      under the name as spelled on this line. */
  function Insert(bs: seq<Bucket>, p: Field): seq<Bucket> {
    match FirstMatch(KeysOf(bs), p.name)
    case Some(k) => bs[k := Bucket(bs[k].key, bs[k].values + [p.value])]
    case None => bs + [Bucket(p.name, [p.value])]
  }

  /** The hash after folding all pairs, in insertion order. */
  function Buckets(ps: seq<Field>): seq<Bucket>
    decreases |ps|
  {
    if ps == [] then [] else Insert(Buckets(ps[..|ps| - 1]), ps[|ps| - 1])
  }

  /** Reference definition: the values of every pair whose name equals `key`
      ignoring case, in order of appearance. */
  function Gather(ps: seq<Field>, key: string): seq<string>
    decreases |ps|
  {
    if ps == [] then []
    else
      var p := ps[|ps| - 1];
      Gather(ps[..|ps| - 1], key) + (if SameIgnoringCase(p.name, key) then [p.value] else [])
  }

  /** Keys are unique ignoring case. */
  predicate CaseDistinct(bs: seq<Bucket>) {
    forall a, b :: 0 <= a < b < |bs| ==> !SameIgnoringCase(bs[a].key, bs[b].key)
  }

  /** Each bucket holds exactly the values of its name, in order. */
  predicate Gathered(ps: seq<Field>, bs: seq<Bucket>) {
    forall k :: 0 <= k < |bs| ==> bs[k].values == Gather(ps, bs[k].key)
  }

  /** Every line landed in some bucket. */
  predicate Covered(ps: seq<Field>, bs: seq<Bucket>) {
    forall i :: 0 <= i < |ps| ==> FirstMatch(KeysOf(bs), ps[i].name).Some?
  }

  /** Each key is spelled as on the first line that names it. */
  predicate FirstSpelled(ps: seq<Field>, bs: seq<Bucket>) {
    forall k :: 0 <= k < |bs| ==>
      FirstMatch(NamesOf(ps), bs[k].key).Some? &&
      ps[FirstMatch(NamesOf(ps), bs[k].key).value].name == bs[k].key
  }

  /** Both names occur among the lines, `x` first. */
  predicate SeenBefore(ps: seq<Field>, x: string, y: string) {
    FirstMatch(NamesOf(ps), x).Some? && FirstMatch(NamesOf(ps), y).Some? &&
    FirstMatch(NamesOf(ps), x).value < FirstMatch(NamesOf(ps), y).value
  }

  /** Keys are in order of first appearance. */
  predicate InFirstSeenOrder(ps: seq<Field>, bs: seq<Bucket>) {
    forall a, b :: 0 <= a < b < |bs| ==> SeenBefore(ps, bs[a].key, bs[b].key)
  }

  /** What the fold promises about the hash it builds from `ps`. */
  predicate Summarises(ps: seq<Field>, bs: seq<Bucket>) {
    CaseDistinct(bs) && Gathered(ps, bs) && Covered(ps, bs) && FirstSpelled(ps, bs) && InFirstSeenOrder(ps, bs)
  }

  /** Looking a name up after one more name was appended finds the old
      match if there was one, else possibly the new name. */
  lemma {:induction false} FirstMatchSnoc(names: seq<string>, n: string, key: string)
    ensures FirstMatch(names + [n], key) ==
      if FirstMatch(names, key).Some? then FirstMatch(names, key)
      else if SameIgnoringCase(n, key) then Some(|names|)
      else None
    decreases |names|
  {
    if names != [] {
      assert (names + [n])[1..] == names[1..] + [n];
      FirstMatchSnoc(names[1..], n, key);
    }
  }

  lemma {:induction false} GatherNone(ps: seq<Field>, key: string)
    requires forall i :: 0 <= i < |ps| ==> !SameIgnoringCase(ps[i].name, key)
    ensures Gather(ps, key) == []
    decreases |ps|
  {
    if ps != [] {
      GatherNone(ps[..|ps| - 1], key);
    }
  }

  lemma GatherSnoc(ps: seq<Field>, p: Field, key: string)
    ensures Gather(ps + [p], key) ==
      Gather(ps, key) + (if SameIgnoringCase(p.name, key) then [p.value] else [])
  {
    assert (ps + [p])[..|ps|] == ps;
  }

  lemma NamesSnoc(ps: seq<Field>, p: Field)
    ensures NamesOf(ps + [p]) == NamesOf(ps) + [p.name]
  {
  }

  /** Names already seen keep their first occurrence when a line is added. */
  lemma FirstSeenKept(ps: seq<Field>, p: Field, key: string)
    requires FirstMatch(NamesOf(ps), key).Some?
    ensures FirstMatch(NamesOf(ps + [p]), key) == FirstMatch(NamesOf(ps), key)
    ensures (ps + [p])[FirstMatch(NamesOf(ps), key).value] == ps[FirstMatch(NamesOf(ps), key).value]
  {
    NamesSnoc(ps, p);
    FirstMatchSnoc(NamesOf(ps), p.name, key);
  }

  // ----- a line whose name already has a bucket -----

  lemma ExistingShape(bs: seq<Bucket>, p: Field, k0: nat)
    requires FirstMatch(KeysOf(bs), p.name) == Some(k0)
    ensures k0 < |bs| && SameIgnoringCase(bs[k0].key, p.name)
    ensures Insert(bs, p) == bs[k0 := Bucket(bs[k0].key, bs[k0].values + [p.value])]
    ensures KeysOf(Insert(bs, p)) == KeysOf(bs)
  {
  }

  lemma ExistingDistinct(bs: seq<Bucket>, p: Field, k0: nat)
    requires CaseDistinct(bs)
    requires FirstMatch(KeysOf(bs), p.name) == Some(k0)
    ensures CaseDistinct(Insert(bs, p))
  {
    ExistingShape(bs, p, k0);
    var bs' := Insert(bs, p);
    forall a, b | 0 <= a < b < |bs'| ensures !SameIgnoringCase(bs'[a].key, bs'[b].key) {
      assert bs'[a].key == bs[a].key && bs'[b].key == bs[b].key;
    }
  }

  lemma ExistingGathered(ps: seq<Field>, bs: seq<Bucket>, p: Field, k0: nat)
    requires CaseDistinct(bs) && Gathered(ps, bs)
    requires FirstMatch(KeysOf(bs), p.name) == Some(k0)
    ensures Gathered(ps + [p], Insert(bs, p))
  {
    ExistingShape(bs, p, k0);
    var bs' := Insert(bs, p);
    forall k | 0 <= k < |bs'| ensures bs'[k].values == Gather(ps + [p], bs'[k].key) {
      GatherSnoc(ps, p, bs[k].key);
      if k != k0 {
        assert !SameIgnoringCase(bs[k].key, p.name) by {
          if k > k0 {
            assert !SameIgnoringCase(bs[k0].key, bs[k].key);
          }
        }
      }
    }
  }

  lemma ExistingCovered(ps: seq<Field>, bs: seq<Bucket>, p: Field, k0: nat)
    requires Covered(ps, bs)
    requires FirstMatch(KeysOf(bs), p.name) == Some(k0)
    ensures Covered(ps + [p], Insert(bs, p))
  {
    ExistingShape(bs, p, k0);
    var ps' := ps + [p];
    forall i | 0 <= i < |ps'| ensures FirstMatch(KeysOf(Insert(bs, p)), ps'[i].name).Some? {
      if i < |ps| {
        assert ps'[i] == ps[i];
      }
    }
  }

  lemma ExistingFirstSpelled(ps: seq<Field>, bs: seq<Bucket>, p: Field, k0: nat)
    requires FirstSpelled(ps, bs)
    requires FirstMatch(KeysOf(bs), p.name) == Some(k0)
    ensures FirstSpelled(ps + [p], Insert(bs, p))
  {
    ExistingShape(bs, p, k0);
    var bs' := Insert(bs, p);
    forall k | 0 <= k < |bs'|
      ensures FirstMatch(NamesOf(ps + [p]), bs'[k].key).Some?
      ensures (ps + [p])[FirstMatch(NamesOf(ps + [p]), bs'[k].key).value].name == bs'[k].key
    {
      assert bs'[k].key == bs[k].key;
      FirstSeenKept(ps, p, bs[k].key);
    }
  }

  lemma ExistingInOrder(ps: seq<Field>, bs: seq<Bucket>, p: Field, k0: nat)
    requires InFirstSeenOrder(ps, bs)
    requires FirstMatch(KeysOf(bs), p.name) == Some(k0)
    ensures InFirstSeenOrder(ps + [p], Insert(bs, p))
  {
    ExistingShape(bs, p, k0);
    var bs' := Insert(bs, p);
    forall a, b | 0 <= a < b < |bs'| ensures SeenBefore(ps + [p], bs'[a].key, bs'[b].key) {
      assert bs'[a].key == bs[a].key && bs'[b].key == bs[b].key;
      SeenBeforeKept(ps, p, bs[a].key, bs[b].key);
    }
  }

  // ----- a line with a new name -----

  /** A name with no bucket yet does not occur, ignoring case, among the
      lines folded so far. */
  lemma UnseenName(ps: seq<Field>, bs: seq<Bucket>, name: string)
    requires Covered(ps, bs)
    requires FirstMatch(KeysOf(bs), name).None?
    ensures forall i :: 0 <= i < |ps| ==> !SameIgnoringCase(ps[i].name, name)
  {
    forall i | 0 <= i < |ps| ensures !SameIgnoringCase(ps[i].name, name) {
      var k := FirstMatch(KeysOf(bs), ps[i].name).value;
      assert SameIgnoringCase(KeysOf(bs)[k], ps[i].name);
      assert !SameIgnoringCase(KeysOf(bs)[k], name);
    }
  }

  lemma NewShape(bs: seq<Bucket>, p: Field)
    requires FirstMatch(KeysOf(bs), p.name).None?
    ensures Insert(bs, p) == bs + [Bucket(p.name, [p.value])]
    ensures KeysOf(Insert(bs, p)) == KeysOf(bs) + [p.name]
    ensures forall k :: 0 <= k < |bs| ==> !SameIgnoringCase(bs[k].key, p.name)
  {
    forall k | 0 <= k < |bs| ensures !SameIgnoringCase(bs[k].key, p.name) {
      assert KeysOf(bs)[k] == bs[k].key;
    }
  }

  /** The new name first occurs on the added line. */
  lemma NewNameFirstLine(ps: seq<Field>, bs: seq<Bucket>, p: Field)
    requires Covered(ps, bs)
    requires FirstMatch(KeysOf(bs), p.name).None?
    ensures FirstMatch(NamesOf(ps + [p]), p.name) == Some(|ps|)
    ensures (ps + [p])[|ps|].name == p.name
  {
    UnseenName(ps, bs, p.name);
    NamesSnoc(ps, p);
    FirstMatchSnoc(NamesOf(ps), p.name, p.name);
  }

  lemma NewDistinct(bs: seq<Bucket>, p: Field)
    requires CaseDistinct(bs)
    requires FirstMatch(KeysOf(bs), p.name).None?
    ensures CaseDistinct(Insert(bs, p))
  {
    NewShape(bs, p);
  }

  lemma NewGathered(ps: seq<Field>, bs: seq<Bucket>, p: Field)
    requires Covered(ps, bs) && Gathered(ps, bs)
    requires FirstMatch(KeysOf(bs), p.name).None?
    ensures Gathered(ps + [p], Insert(bs, p))
  {
    NewShape(bs, p);
    UnseenName(ps, bs, p.name);
    GatherNone(ps, p.name);
    var bs' := Insert(bs, p);
    forall k | 0 <= k < |bs'| ensures bs'[k].values == Gather(ps + [p], bs'[k].key) {
      GatherSnoc(ps, p, bs'[k].key);
    }
  }

  lemma NewCovered(ps: seq<Field>, bs: seq<Bucket>, p: Field)
    requires Covered(ps, bs)
    requires FirstMatch(KeysOf(bs), p.name).None?
    ensures Covered(ps + [p], Insert(bs, p))
  {
    NewShape(bs, p);
    var ps' := ps + [p];
    forall i | 0 <= i < |ps'| ensures FirstMatch(KeysOf(Insert(bs, p)), ps'[i].name).Some? {
      FirstMatchSnoc(KeysOf(bs), p.name, ps'[i].name);
      if i < |ps| {
        assert ps'[i] == ps[i];
      }
    }
  }

  lemma NewFirstSpelled(ps: seq<Field>, bs: seq<Bucket>, p: Field)
    requires Covered(ps, bs) && FirstSpelled(ps, bs)
    requires FirstMatch(KeysOf(bs), p.name).None?
    ensures FirstSpelled(ps + [p], Insert(bs, p))
  {
    NewShape(bs, p);
    NewNameFirstLine(ps, bs, p);
    var bs' := Insert(bs, p);
    forall k | 0 <= k < |bs'|
      ensures FirstMatch(NamesOf(ps + [p]), bs'[k].key).Some?
      ensures (ps + [p])[FirstMatch(NamesOf(ps + [p]), bs'[k].key).value].name == bs'[k].key
    {
      if k < |bs| {
        assert bs'[k] == bs[k];
        FirstSeenKept(ps, p, bs[k].key);
      } else {
        assert bs'[k].key == p.name;
      }
    }
  }

  /** Two names seen in some order stay in that order when a line is added. */
  lemma SeenBeforeKept(ps: seq<Field>, p: Field, x: string, y: string)
    requires SeenBefore(ps, x, y)
    ensures SeenBefore(ps + [p], x, y)
  {
    FirstSeenKept(ps, p, x);
    FirstSeenKept(ps, p, y);
  }

  /** A name seen before comes before the name of a line that is new. */
  lemma SeenBeforeNew(ps: seq<Field>, p: Field, x: string)
    requires FirstMatch(NamesOf(ps), x).Some?
    requires FirstMatch(NamesOf(ps + [p]), p.name) == Some(|ps|)
    ensures SeenBefore(ps + [p], x, p.name)
  {
    FirstSeenKept(ps, p, x);
  }

  lemma NewInOrder(ps: seq<Field>, bs: seq<Bucket>, p: Field)
    requires Covered(ps, bs) && FirstSpelled(ps, bs) && InFirstSeenOrder(ps, bs)
    requires FirstMatch(KeysOf(bs), p.name).None?
    ensures InFirstSeenOrder(ps + [p], Insert(bs, p))
  {
    NewShape(bs, p);
    NewNameFirstLine(ps, bs, p);
    var bs' := bs + [Bucket(p.name, [p.value])];
    forall a, b | 0 <= a < b < |bs'| ensures SeenBefore(ps + [p], bs'[a].key, bs'[b].key) {
      assert bs'[a] == bs[a];
      if b < |bs| {
        assert bs'[b] == bs[b];
        SeenBeforeKept(ps, p, bs[a].key, bs[b].key);
      } else {
        assert FirstMatch(NamesOf(ps), bs[a].key).Some?;
        SeenBeforeNew(ps, p, bs[a].key);
      }
    }
  }

  // ----- one step of the fold, either way -----

  lemma InsertDistinct(bs: seq<Bucket>, p: Field)
    requires CaseDistinct(bs)
    ensures CaseDistinct(Insert(bs, p))
  {
    match FirstMatch(KeysOf(bs), p.name)
    case Some(k0) => ExistingDistinct(bs, p, k0);
    case None => NewDistinct(bs, p);
  }

  lemma InsertGathered(ps: seq<Field>, bs: seq<Bucket>, p: Field)
    requires CaseDistinct(bs) && Covered(ps, bs) && Gathered(ps, bs)
    ensures Gathered(ps + [p], Insert(bs, p))
  {
    match FirstMatch(KeysOf(bs), p.name)
    case Some(k0) => ExistingGathered(ps, bs, p, k0);
    case None => NewGathered(ps, bs, p);
  }

  lemma InsertCovered(ps: seq<Field>, bs: seq<Bucket>, p: Field)
    requires Covered(ps, bs)
    ensures Covered(ps + [p], Insert(bs, p))
  {
    match FirstMatch(KeysOf(bs), p.name)
    case Some(k0) => ExistingCovered(ps, bs, p, k0);
    case None => NewCovered(ps, bs, p);
  }

  lemma InsertFirstSpelled(ps: seq<Field>, bs: seq<Bucket>, p: Field)
    requires Covered(ps, bs) && FirstSpelled(ps, bs)
    ensures FirstSpelled(ps + [p], Insert(bs, p))
  {
    match FirstMatch(KeysOf(bs), p.name)
    case Some(k0) => ExistingFirstSpelled(ps, bs, p, k0);
    case None => NewFirstSpelled(ps, bs, p);
  }

  lemma InsertInOrder(ps: seq<Field>, bs: seq<Bucket>, p: Field)
    requires Covered(ps, bs) && FirstSpelled(ps, bs) && InFirstSeenOrder(ps, bs)
    ensures InFirstSeenOrder(ps + [p], Insert(bs, p))
  {
    match FirstMatch(KeysOf(bs), p.name)
    case Some(k0) => ExistingInOrder(ps, bs, p, k0);
    case None => NewInOrder(ps, bs, p);
  }

  // ----- the whole fold, one property at a time -----

  /** Keys stay unique ignoring case. */
  lemma {:induction false} BucketsDistinct(ps: seq<Field>)
    ensures CaseDistinct(Buckets(ps))
    decreases |ps|
  {
    if ps != [] {
      var init, last := ps[..|ps| - 1], ps[|ps| - 1];
      assert CaseDistinct(Insert(Buckets(init), last)) by {
        BucketsDistinct(init);
        InsertDistinct(Buckets(init), last);
      }
      assert init + [last] == ps;
    }
  }

  /** Every line lands in some bucket. */
  lemma {:induction false} BucketsCovered(ps: seq<Field>)
    ensures Covered(ps, Buckets(ps))
    decreases |ps|
  {
    if ps != [] {
      var init, last := ps[..|ps| - 1], ps[|ps| - 1];
      assert Covered(init + [last], Insert(Buckets(init), last)) by {
        BucketsCovered(init);
        InsertCovered(init, Buckets(init), last);
      }
      assert init + [last] == ps;
    }
  }

  /** Each bucket holds all values of its name, in order. */
  lemma {:induction false} BucketsGathered(ps: seq<Field>)
    ensures Gathered(ps, Buckets(ps))
    decreases |ps|
  {
    if ps != [] {
      var init, last := ps[..|ps| - 1], ps[|ps| - 1];
      assert Gathered(init + [last], Insert(Buckets(init), last)) by {
        BucketsDistinct(init);
        BucketsCovered(init);
        BucketsGathered(init);
        InsertGathered(init, Buckets(init), last);
      }
      assert init + [last] == ps;
    }
  }

  /** Keys are spelled as on the first line naming them. */
  lemma {:induction false} BucketsFirstSpelled(ps: seq<Field>)
    ensures FirstSpelled(ps, Buckets(ps))
    decreases |ps|
  {
    if ps != [] {
      var init, last := ps[..|ps| - 1], ps[|ps| - 1];
      assert FirstSpelled(init + [last], Insert(Buckets(init), last)) by {
        BucketsCovered(init);
        BucketsFirstSpelled(init);
        InsertFirstSpelled(init, Buckets(init), last);
      }
      assert init + [last] == ps;
    }
  }

  /** Keys are ordered by first appearance. */
  lemma {:induction false} BucketsInOrder(ps: seq<Field>)
    ensures InFirstSeenOrder(ps, Buckets(ps))
    decreases |ps|
  {
    if ps != [] {
      var init, last := ps[..|ps| - 1], ps[|ps| - 1];
      assert InFirstSeenOrder(init + [last], Insert(Buckets(init), last)) by {
        BucketsCovered(init);
        BucketsFirstSpelled(init);
        BucketsInOrder(init);
        InsertInOrder(init, Buckets(init), last);
      }
      assert init + [last] == ps;
    }
  }

  /** The fold over all pairs: unique keys ignoring case, each holding all
      of its values in order, every line accounted for, keys spelled as first
      seen and ordered by first appearance. */
  lemma BucketsSummarise(ps: seq<Field>)
    ensures Summarises(ps, Buckets(ps))
  {
    BucketsDistinct(ps);
    BucketsGathered(ps);
    BucketsCovered(ps);
    BucketsFirstSpelled(ps);
    BucketsInOrder(ps);
  }

  /** `transform_values { |v| v.join(', ') }`. */
  function Render(bs: seq<Bucket>): (fs: seq<Field>)
    ensures |fs| == |bs|
    ensures forall k :: 0 <= k < |bs| ==>
      fs[k].name == bs[k].key && fs[k].value == Join(bs[k].values, ValueSeparator)
  {
    seq(|bs|, k requires 0 <= k < |bs| => Field(bs[k].key, Join(bs[k].values, ValueSeparator)))
  }

  /** The field lines of a non-empty raw block. */
  function FieldLines(raw: string): seq<string>
    requires raw != []
  {
    Lines(Chomp(HeaderSection(raw).value))
  }

  /** Reference definition of `Response#headers` over the raw block. */
  function ResponseHeaders(raw: string): Result<seq<Field>, HeaderError> {
    if raw == [] then Err(NoHeaderSection)
    else match ParsePairs(FieldLines(raw))
      case Err(e) => Err(e)
      case Ok(ps) => Ok(Render(Buckets(ps)))
  }

  /** The error case: parsing fails exactly on an empty block or when some
      field line has no ':'. */
  lemma ResponseHeadersFail(raw: string)
    ensures ResponseHeaders(raw).Err? <==>
      raw == [] || exists i :: 0 <= i < |FieldLines(raw)| && ':' !in FieldLines(raw)[i]
  {
    if raw != [] {
      ParsePairsOk(FieldLines(raw));
    }
  }

  lemma RenderedDistinct(bs: seq<Bucket>)
    requires CaseDistinct(bs)
    ensures var fs := Render(bs);
      forall a, b :: 0 <= a < b < |fs| ==> !SameIgnoringCase(fs[a].name, fs[b].name)
  {
  }

  lemma RenderedGathered(ps: seq<Field>, bs: seq<Bucket>)
    requires Gathered(ps, bs)
    ensures var fs := Render(bs);
      forall k :: 0 <= k < |fs| ==> fs[k].value == Join(Gather(ps, fs[k].name), ValueSeparator)
  {
  }

  lemma RenderedFirstSpelled(ps: seq<Field>, bs: seq<Bucket>)
    requires FirstSpelled(ps, bs)
    ensures var fs := Render(bs);
      forall k :: 0 <= k < |fs| ==>
        FirstMatch(NamesOf(ps), fs[k].name).Some? && ps[FirstMatch(NamesOf(ps), fs[k].name).value].name == fs[k].name
  {
  }

  lemma RenderedInOrder(ps: seq<Field>, bs: seq<Bucket>)
    requires InFirstSeenOrder(ps, bs)
    ensures var fs := Render(bs);
      forall a, b :: 0 <= a < b < |fs| ==> SeenBefore(ps, fs[a].name, fs[b].name)
  {
    var fs := Render(bs);
    forall a, b | 0 <= a < b < |fs| ensures SeenBefore(ps, fs[a].name, fs[b].name) {
      assert fs[a].name == bs[a].key && fs[b].name == bs[b].key;
    }
  }

  lemma RenderedCovered(ps: seq<Field>, bs: seq<Bucket>)
    requires Covered(ps, bs)
    ensures forall i :: 0 <= i < |ps| ==> FirstMatch(NamesOf(Render(bs)), ps[i].name).Some?
  {
    assert NamesOf(Render(bs)) == KeysOf(bs);
  }

  /** The parsed headers of a block: names unique ignoring case, each value
      the ", " join of that name's stripped values in order of appearance,
      each name spelled as on the first line that uses it, names in order of
      first appearance, and no line left out. */
  lemma ResponseHeadersFields(raw: string)
    requires ResponseHeaders(raw).Ok?
    ensures
      var ps := ParsePairs(FieldLines(raw)).value;
      var fs := ResponseHeaders(raw).value;
      && (forall a, b :: 0 <= a < b < |fs| ==> !SameIgnoringCase(fs[a].name, fs[b].name))
      && (forall k :: 0 <= k < |fs| ==> fs[k].value == Join(Gather(ps, fs[k].name), ValueSeparator))
      && (forall k :: 0 <= k < |fs| ==>
            FirstMatch(NamesOf(ps), fs[k].name).Some? &&
            ps[FirstMatch(NamesOf(ps), fs[k].name).value].name == fs[k].name)
      && (forall a, b :: 0 <= a < b < |fs| ==> SeenBefore(ps, fs[a].name, fs[b].name))
      && (forall i :: 0 <= i < |ps| ==> FirstMatch(NamesOf(fs), ps[i].name).Some?)
  {
    var ps := ParsePairs(FieldLines(raw)).value;
    var bs := Buckets(ps);
    assert ResponseHeaders(raw).value == Render(bs);
    BucketsSummarise(ps);
    RenderedDistinct(bs);
    RenderedGathered(ps, bs);
    RenderedFirstSpelled(ps, bs);
    RenderedInOrder(ps, bs);
    RenderedCovered(ps, bs);
  }

  lemma EachSnoc(lines: seq<string>, parse: string -> Option<Field>, i: nat, ps: seq<Field>, p: Field)
    requires i < |lines|
    requires ParseEach(lines[..i], parse) == Ok(ps)
    requires parse(lines[i]) == Some(p)
    ensures ParseEach(lines[..i + 1], parse) == Ok(ps + [p])
  {
    assert lines[..i + 1][..i] == lines[..i];
  }

  lemma EachStop(lines: seq<string>, parse: string -> Option<Field>, i: nat, ps: seq<Field>)
    requires i < |lines|
    requires ParseEach(lines[..i], parse) == Ok(ps)
    requires parse(lines[i]).None?
    ensures ParseEach(lines, parse) == Err(MissingSeparator(i))
  {
    assert lines[..i + 1][..i] == lines[..i];
    EachErrorPersists(lines, parse, i + 1);
  }

  lemma BucketsSnoc(ps: seq<Field>, p: Field)
    ensures Buckets(ps + [p]) == Insert(Buckets(ps), p)
  {
    assert (ps + [p])[..|ps|] == ps;
  }

  /** `hsh.keys.find { _1.casecmp? name }` as a linear search over the keys
      collected so far. */
  method FindKey(buckets: seq<Bucket>, name: string) returns (k: Option<nat>)
    ensures k == FirstMatch(KeysOf(buckets), name)
  {
    var j := 0;
    while j < |buckets|
      invariant 0 <= j <= |buckets|
      invariant forall m :: 0 <= m < j ==> !SameIgnoringCase(buckets[m].key, name)
    {
      if SameIgnoringCase(buckets[j].key, name) {
        return Some(j);
      }
      j := j + 1;
    }
    return None;
  }

  /** The final `transform_values` pass, one bucket at a time. */
  method JoinBuckets(buckets: seq<Bucket>) returns (fields: seq<Field>)
    ensures fields == Render(buckets)
  {
    fields := [];
    var j := 0;
    while j < |buckets|
      invariant 0 <= j <= |buckets|
      invariant fields == Render(buckets[..j])
    {
      assert buckets[..j + 1][..j] == buckets[..j];
      fields := fields + [Field(buckets[j].key, Join(buckets[j].values, ValueSeparator))];
      j := j + 1;
    }
    assert buckets[..j] == buckets;
  }

  /** One step of the fold: `hsh[key] << value`, under the existing key
      that equals the name ignoring case, or under a new key. */
  method AddValue(buckets: seq<Bucket>, p: Field) returns (next: seq<Bucket>)
    ensures next == Insert(buckets, p)
  {
    var k := FindKey(buckets, p.name);
    if k.Some? {
      var b := buckets[k.value];
      next := buckets[k.value := Bucket(b.key, b.values + [p.value])];
    } else {
      next := buckets + [Bucket(p.name, [p.value])];
    }
  }

  /** `Response#headers` as the Ruby code runs it: split off the start line,
      chomp, cut into lines, then fold the lines into the hash, appending each
      value to the bucket of its key, and join every bucket. */
  method ParseResponseHeaders(raw: string) returns (r: Result<seq<Field>, HeaderError>)
    ensures r == ResponseHeaders(raw)
  {
    var section := HeaderSection(raw);
    if section.None? {
      return Err(NoHeaderSection);
    }
    var lines := Lines(Chomp(section.value));
    var buckets: seq<Bucket> := [];
    ghost var ps: seq<Field> := [];
    var i := 0;
    while i < |lines|
      invariant 0 <= i <= |lines|
      invariant ParsePairs(lines[..i]) == Ok(ps)
      invariant buckets == Buckets(ps)
    {
      var parsed := ParseLine(lines[i]);
      if parsed.None? {
        EachStop(lines, ParseLine, i, ps);
        return Err(MissingSeparator(i));
      }
      var p := parsed.value;
      buckets := AddValue(buckets, p);
      EachSnoc(lines, ParseLine, i, ps, p);
      BucketsSnoc(ps, p);
      ps := ps + [p];
      i := i + 1;
    }
    assert lines[..i] == lines;
    var fields := JoinBuckets(buckets);
    r := Ok(fields);
  }
}
