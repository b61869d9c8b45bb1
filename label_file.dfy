/**
 * `ReadLabelFile` of the TPU detection server: each line of a label map
 * file is "<id> <name>" and becomes the entry `id -> name`.
 */
module LabelFile {
  import opened Wrappers
  import opened PyText

  /** The Python exceptions a malformed line raises out of `ReadLabelFile`. */
  datatype PyError = IndexError | ValueError

  /**
   * One line: `pair = line.strip().split(maxsplit=1)`, then
   * `ret[int(pair[0])] = pair[1].strip()`.  The right-hand side is evaluated
   * first, so a line with fewer than two words raises IndexError even when
   * its first word is not a number.
   */
  function ParseLabelLine(line: string): (r: Result<(int, string), PyError>)
    ensures r == Err(IndexError) <==> |SplitOnce(Strip(line))| < 2
    ensures r == Err(ValueError) <==> |SplitOnce(Strip(line))| == 2 && PyInt(SplitOnce(Strip(line))[0]).None?
    ensures r.Ok? ==>
      var pair := SplitOnce(Strip(line));
      PyInt(pair[0]) == Some(r.value.0) && r.value.1 == Strip(pair[1])
    ensures r.Ok? ==> r.value.1 != [] && !IsSpace(r.value.1[0]) && !IsSpace(r.value.1[|r.value.1| - 1])
  {
    var pair := SplitOnce(Strip(line));
    if |pair| < 2 then Err(IndexError)
    else
      var name := Strip(pair[1]);
      match PyInt(pair[0])
      case None => Err(ValueError)
      case Some(id) => Ok((id, name))
  }

  type ParsedLine = Result<(int, string), PyError>

  /** Every line parsed on its own. */
  function ParsedLines(lines: seq<string>): (parsed: seq<ParsedLine>)
    ensures |parsed| == |lines| && forall i | 0 <= i < |lines| :: parsed[i] == ParseLabelLine(lines[i])
  {
    seq(|lines|, i requires 0 <= i < |lines| => ParseLabelLine(lines[i]))
  }

  /**
   * The dictionary after entering the parsed lines in order, or the
   * exception of the first bad line.
   */
  function LabelMap(parsed: seq<ParsedLine>): Result<map<int, string>, PyError> {
    if parsed == [] then Ok(map[])
    else
      match LabelMap(parsed[..|parsed| - 1])
      case Err(e) => Err(e)
      case Ok(ret) =>
        match parsed[|parsed| - 1]
        case Err(e) => Err(e)
        case Ok(entry) => Ok(ret[entry.0 := entry.1])
  }

  /** `ReadLabelFile` on the lines `readlines()` returned. */
  method ReadLabelFile(lines: seq<string>) returns (r: Result<map<int, string>, PyError>)
    ensures r == LabelMap(ParsedLines(lines))
  {
    ghost var parsed := ParsedLines(lines);
    var ret: map<int, string> := map[];
    for n := 0 to |lines|
      invariant LabelMap(parsed[..n]) == Ok(ret)
    {
      var entry := ParseLabelLine(lines[n]);
      LabelMapStep(parsed, n, ret);
      if entry.Err? {
        LabelMapKeepsError(parsed, n + 1);
        assert parsed[..|parsed|] == parsed;
        return Err(entry.error);
      }
      ret := ret[entry.value.0 := entry.value.1];
    }
    assert parsed[..|parsed|] == parsed;
    r := Ok(ret);
  }

  /** One more line: its exception, or its entry entered into the dictionary so far. */
  lemma LabelMapStep(parsed: seq<ParsedLine>, n: nat, ret: map<int, string>)
    requires n < |parsed| && LabelMap(parsed[..n]) == Ok(ret)
    ensures LabelMap(parsed[..n + 1]) == match parsed[n]
      case Err(e) => Err(e)
      case Ok(entry) => Ok(ret[entry.0 := entry.1])
  {
    assert parsed[..n + 1][..n] == parsed[..n];
  }

  lemma {:induction false} LabelMapKeepsError(parsed: seq<ParsedLine>, k: nat)
    requires k <= |parsed| && LabelMap(parsed[..k]).Err?
    ensures LabelMap(parsed) == LabelMap(parsed[..k])
  {
    if k < |parsed| {
      var prefix := parsed[..|parsed| - 1];
      assert prefix[..k] == parsed[..k];
      LabelMapKeepsError(prefix, k);
    } else {
      assert parsed[..k] == parsed;
    }
  }

  /** A bad line anywhere fails the whole file, with the exception of the first bad line. */
  lemma {:induction false} LabelMapFailsAtFirstBadLine(parsed: seq<ParsedLine>)
    ensures LabelMap(parsed).Err? <==> exists i | 0 <= i < |parsed| :: parsed[i].Err?
    ensures LabelMap(parsed).Err? ==>
      exists i | 0 <= i < |parsed| ::
        && parsed[i] == Err(LabelMap(parsed).error)
        && forall j | 0 <= j < i :: parsed[j].Ok?
  {
    if parsed != [] {
      var prefix := parsed[..|parsed| - 1];
      LabelMapFailsAtFirstBadLine(prefix);
      assert forall i | 0 <= i < |prefix| :: prefix[i] == parsed[i];
      if LabelMap(prefix).Ok? && LabelMap(parsed).Err? {
        assert forall j | 0 <= j < |prefix| :: parsed[j].Ok?;
        assert parsed[|parsed| - 1] == Err(LabelMap(parsed).error);
      }
    }
  }

  /** The keys are exactly the ids of the lines. */
  lemma {:induction false} LabelMapKeys(parsed: seq<ParsedLine>, ret: map<int, string>)
    requires LabelMap(parsed) == Ok(ret)
    ensures forall id :: id in ret <==> exists i | 0 <= i < |parsed| :: parsed[i].Ok? && parsed[i].value.0 == id
  {
    if parsed != [] {
      var prefix := parsed[..|parsed| - 1];
      var before := LabelMap(prefix).value;
      var last := parsed[|parsed| - 1].value;
      LabelMapKeys(prefix, before);
      assert ret == before[last.0 := last.1];
      forall id ensures id in ret <==> exists i | 0 <= i < |parsed| :: parsed[i].Ok? && parsed[i].value.0 == id {
        if id in before {
          var i :| 0 <= i < |prefix| && prefix[i].Ok? && prefix[i].value.0 == id;
          assert parsed[i] == prefix[i];
        }
        if exists i | 0 <= i < |parsed| :: parsed[i].Ok? && parsed[i].value.0 == id {
          var i :| 0 <= i < |parsed| && parsed[i].Ok? && parsed[i].value.0 == id;
          if i < |prefix| { assert prefix[i] == parsed[i]; }
        }
      }
    }
  }

  /** Each id names what the last of its lines says: a later line overwrites an earlier one. */
  lemma {:induction false} LabelMapLastLineWins(parsed: seq<ParsedLine>, ret: map<int, string>)
    requires LabelMap(parsed) == Ok(ret)
    ensures forall i | 0 <= i < |parsed| && parsed[i].Ok? ::
      (forall j | i < j < |parsed| && parsed[j].Ok? :: parsed[j].value.0 != parsed[i].value.0) ==>
        parsed[i].value.0 in ret && ret[parsed[i].value.0] == parsed[i].value.1
  {
    if parsed != [] {
      var prefix := parsed[..|parsed| - 1];
      var before := LabelMap(prefix).value;
      var last := parsed[|parsed| - 1].value;
      LabelMapLastLineWins(prefix, before);
      assert ret == before[last.0 := last.1];
      forall i | 0 <= i < |parsed| - 1 && parsed[i].Ok? &&
                 (forall j | i < j < |parsed| && parsed[j].Ok? :: parsed[j].value.0 != parsed[i].value.0)
        ensures parsed[i].value.0 in ret && ret[parsed[i].value.0] == parsed[i].value.1
      {
        assert prefix[i] == parsed[i];
        assert forall j | i < j < |prefix| && prefix[j].Ok? :: prefix[j].value.0 != prefix[i].value.0 by {
          forall j | i < j < |prefix| && prefix[j].Ok? ensures prefix[j].value.0 != prefix[i].value.0 {
            assert prefix[j] == parsed[j];
          }
        }
        assert parsed[|parsed| - 1].Ok?;
      }
    }
  }

  /** The line `str(id) + " " + name + "\n"` for an entry. */
  function FormatLabelLine(id: int, name: string): string {
    DecimalString(id) + " " + name + "\n"
  }

  lemma DecimalStringHasNoSpace(n: int)
    ensures var d := DecimalString(n); d != [] && forall k | 0 <= k < |d| :: !IsSpace(d[k])
  {
    var d := DecimalString(n);
    if n < 0 {
      forall k | 0 <= k < |d| ensures !IsSpace(d[k]) {
        if k > 0 { assert d[k] == NatString(-n)[k - 1]; }
      }
    }
  }

  /**
   * A line made of a word `int()` reads as `id`, a run of whitespace and a
   * name, with any whitespace around it, reads back as `id -> name`,
   * whatever the separator.
   */
  lemma ParseSeparatedLine(lead: string, word: string, sep: string, name: string, trail: string, id: int)
    requires forall k | 0 <= k < |lead| :: IsSpace(lead[k])
    requires word != [] && forall k | 0 <= k < |word| :: !IsSpace(word[k])
    requires PyInt(word) == Some(id)
    requires sep != [] && forall k | 0 <= k < |sep| :: IsSpace(sep[k])
    requires name != [] && !IsSpace(name[0]) && !IsSpace(name[|name| - 1])
    requires forall k | 0 <= k < |trail| :: IsSpace(trail[k])
    ensures ParseLabelLine(lead + word + sep + name + trail) == Ok((id, name))
  {
    StripOfSeparatedLine(lead, word, sep, name, trail);
    SplitOnceOfSeparated(word, sep, name);
    StripOfStripped(name);
    ParseOfPieces(lead + word + sep + name + trail, word, id, name);
  }

  lemma StripOfSeparatedLine(lead: string, word: string, sep: string, name: string, trail: string)
    requires forall k | 0 <= k < |lead| :: IsSpace(lead[k])
    requires forall k | 0 <= k < |trail| :: IsSpace(trail[k])
    requires word != [] && !IsSpace(word[0])
    requires name != [] && !IsSpace(name[|name| - 1])
    ensures Strip(lead + word + sep + name + trail) == word + sep + name
  {
    var text := word + sep + name;
    assert text[0] == word[0] && text[|text| - 1] == name[|name| - 1];
    StripOfPadded(lead, text, trail);
    assert lead + text + trail == lead + word + sep + name + trail;
  }

  lemma SplitOnceOfSeparated(word: string, sep: string, name: string)
    requires word != [] && forall k | 0 <= k < |word| :: !IsSpace(word[k])
    requires sep != [] && forall k | 0 <= k < |sep| :: IsSpace(sep[k])
    requires name != [] && !IsSpace(name[0])
    ensures SplitOnce(word + sep + name) == [word, name]
  {
    var none: string := [];
    SplitOnceOfPair(none, word, sep, name);
    assert none + word == word;
  }

  lemma ParseOfPieces(line: string, word: string, id: int, name: string)
    requires SplitOnce(Strip(line)) == [word, name]
    requires PyInt(word) == Some(id) && Strip(name) == name
    ensures ParseLabelLine(line) == Ok((id, name))
  {
  }

  /** A line holding a single word, whatever that word is, raises IndexError. */
  lemma ParseOneWordLine(lead: string, word: string, trail: string)
    requires forall k | 0 <= k < |lead| :: IsSpace(lead[k])
    requires word != [] && forall k | 0 <= k < |word| :: !IsSpace(word[k])
    requires forall k | 0 <= k < |trail| :: IsSpace(trail[k])
    ensures ParseLabelLine(lead + word + trail) == Err(IndexError)
  {
    StripOfPadded(lead, word, trail);
    var none: string := [];
    SplitOnceOfWord(none, word, none);
    assert none + word + none == word;
  }

  /** Reading back a formatted line gives its entry, for any name without surrounding whitespace. */
  lemma ParseFormattedLine(id: int, name: string)
    requires name != [] && !IsSpace(name[0]) && !IsSpace(name[|name| - 1])
    ensures ParseLabelLine(FormatLabelLine(id, name)) == Ok((id, name))
  {
    var none: string := [];
    DecimalStringHasNoSpace(id);
    PyIntOfDecimalString(id);
    ParseSeparatedLine(none, DecimalString(id), " ", name, "\n", id);
    assert none + DecimalString(id) == DecimalString(id);
  }
}
