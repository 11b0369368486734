/** The header of a TRY `.dat` file: metadata lines recognised by their prefix,
    the "***" line that opens the data block, and the column names taken from
    the line just before it. Lines are given without their line terminator. */
module TryHeader {
  import opened Wrappers
  import opened Text

  datatype Header = Header(
    rechtswert: Option<nat>,
    hochwert: Option<nat>,
    altitude: Option<nat>,
    kind: Option<string>)

  const NoHeader := Header(None, None, None, None)

  datatype ReadError =
    | MetadataUnreadable(path: string)     // ValueError from a converter, naming the file
    | MissingSeparator(line: string)       // IndexError from `line.split(":")[1]`
    | MissingKey(key: string)              // KeyError
    | DatapointsUnreadable(path: string)   // ValueError from the table tokeniser
    | WrongRowCount(path: string, count: nat)
    | NotDatetime                          // AttributeError from `.dt` on a non-date column

  const Sentinel := "***"

  /** Lines that the metadata loop looks at. */
  predicate IsMetaLine(line: string) {
    StartsWith(line, "Rechtswert") || StartsWith(line, "Hochwert")
    || StartsWith(line, "Hoehenlage") || StartsWith(line, "Art des TRY")
  }

  /** The text between the first and the second ':' (or the end of the line). */
  function FieldText(line: string): (r: Result<string, ReadError>)
    ensures r.Success? <==> ':' in line
    ensures r.Success? ==> ':' !in r.value
    ensures r.Failure? ==> r.error == MissingSeparator(line)
  {
    var row := Split(line, ':');
    if |row| < 2 then
      assert row == [line];
      Failure(MissingSeparator(line))
    else Success(row[1])
  }

  lemma {:induction false} SplitAfterSeparatorFree(a: string, rest: string, sep: char)
    requires sep !in a
    ensures Split(a + [sep] + rest, sep) == [a] + Split(rest, sep)
  {
    var s := a + [sep] + rest;
    assert s[|a|] == sep;
    assert forall i :: 0 <= i < |a| ==> s[i] == a[i];
    var k := IndexOf(s, sep);
    assert k == |a|;
    assert s[..k] == a;
    assert s[k + 1..] == rest;
  }

  /** The field is exactly the text after the first ':' up to the next one. */
  lemma FieldTextOf(key: string, value: string, tail: string)
    requires ':' !in key && ':' !in value
    requires tail == [] || tail[0] == ':'
    ensures FieldText(key + ":" + value + tail) == Success(value)
  {
    var line := key + ":" + value + tail;
    assert line == key + [':'] + (value + tail);
    SplitAfterSeparatorFree(key, value + tail, ':');
    FirstPartOf(value, tail);
  }

  /** A text free of ':' followed by nothing or by a ':' is the first part. */
  lemma FirstPartOf(value: string, tail: string)
    requires ':' !in value
    requires tail == [] || tail[0] == ':'
    ensures Split(value + tail, ':')[0] == value
  {
    if tail == [] {
      assert value + tail == value;
    } else {
      assert value + tail == value + [':'] + tail[1..];
      SplitAfterSeparatorFree(value, tail[1..], ':');
    }
  }

  /** An integer converter: the first maximal digit run. */
  function IntField(data: string, path: string): (r: Result<nat, ReadError>)
    ensures r.Failure? <==> NoDigits(data)
    ensures r.Success? ==> Some(r.value) == FirstDigitRun(data)
    ensures r.Failure? ==> r.error == MetadataUnreadable(path)
  {
    match FirstDigitRun(data)
    case None => Failure(MetadataUnreadable(path))
    case Some(n) => Success(n)
  }

  /** No line starts with two of the metadata keys. */
  lemma KeysExclusive(line: string)
    ensures StartsWith(line, "Rechtswert") ==>
      !StartsWith(line, "Hochwert") && !StartsWith(line, "Hoehenlage") && !StartsWith(line, "Art des TRY")
    ensures StartsWith(line, "Hochwert") ==> !StartsWith(line, "Hoehenlage") && !StartsWith(line, "Art des TRY")
    ensures StartsWith(line, "Hoehenlage") ==> !StartsWith(line, "Art des TRY")
  {
    if StartsWith(line, "Rechtswert") {
      assert line[0] == 'R';
    }
    if StartsWith(line, "Hochwert") {
      assert line[0] == 'H' && line[2] == 'c';
    }
    if StartsWith(line, "Hoehenlage") {
      assert line[0] == 'H';
    }
  }

  /** One pass of the metadata loop. The four prefixes exclude each other, so at
      most one key applies; a later line for the same key overwrites. */
  function ApplyHeaderLine(h: Header, line: string, path: string): (r: Result<Header, ReadError>)
    ensures !IsMetaLine(line) ==> r == Success(h)
    ensures r.Failure? ==> r.error == MetadataUnreadable(path) || r.error == MissingSeparator(line)
    ensures IsMetaLine(line) && ':' !in line ==> r == Failure(MissingSeparator(line))
    ensures r.Success? && StartsWith(line, "Rechtswert") ==>
      r.value == h.(rechtswert := r.value.rechtswert) && r.value.rechtswert == FirstDigitRun(FieldText(line).value)
    ensures r.Success? && StartsWith(line, "Hochwert") ==>
      r.value == h.(hochwert := r.value.hochwert) && r.value.hochwert == FirstDigitRun(FieldText(line).value)
    ensures r.Success? && StartsWith(line, "Hoehenlage") ==>
      r.value == h.(altitude := r.value.altitude) && r.value.altitude == FirstDigitRun(FieldText(line).value)
    ensures StartsWith(line, "Art des TRY") && ':' in line ==>
      r == Success(h.(kind := Some(Trim(FieldText(line).value))))
  {
    KeysExclusive(line);
    if StartsWith(line, "Rechtswert") then
      var data :- FieldText(line);
      var n :- IntField(data, path);
      Success(h.(rechtswert := Some(n)))
    else if StartsWith(line, "Hochwert") then
      var data :- FieldText(line);
      var n :- IntField(data, path);
      Success(h.(hochwert := Some(n)))
    else if StartsWith(line, "Hoehenlage") then
      var data :- FieldText(line);
      var n :- IntField(data, path);
      Success(h.(altitude := Some(n)))
    else if StartsWith(line, "Art des TRY") then
      var data :- FieldText(line);
      Success(h.(kind := Some(Trim(data))))
    else Success(h)
  }

  /** The header lines' effect, applied in order. */
  function FoldHeader(h: Header, lines: seq<string>, path: string): Result<Header, ReadError>
    decreases |lines|
  {
    if lines == [] then Success(h)
    else
      var h' :- ApplyHeaderLine(h, lines[0], path);
      FoldHeader(h', lines[1..], path)
  }

  /** What the header loop leaves behind: the metadata, and the column names if the
      data block was found. */
  datatype Scanned = Scanned(header: Header, columns: Option<seq<string>>)

  /** The reference semantics of the header loop, from line `i` on, with the
      metadata `h` so far and the previous line `last`. */
  function ScanFrom(lines: seq<string>, i: nat, h: Header, last: string, path: string): (r: Result<Scanned, ReadError>)
    requires i <= |lines|
    ensures r.Failure? ==> r.error.MetadataUnreadable? || r.error.MissingSeparator?
    decreases |lines| - i
  {
    if i == |lines| then Success(Scanned(h, None))
    else if StartsWith(lines[i], Sentinel) then Success(Scanned(h, Some(LetterRuns(last))))
    else
      var h' :- ApplyHeaderLine(h, lines[i], path);
      ScanFrom(lines, i + 1, h', lines[i], path)
  }

  /** The header loop. */
  method ScanHeader(lines: seq<string>, path: string) returns (r: Result<Scanned, ReadError>)
    ensures r == ScanFrom(lines, 0, NoHeader, "", path)
  {
    var h := NoHeader;
    var last := "";
    var i := 0;
    while i < |lines|
      invariant 0 <= i <= |lines|
      invariant ScanFrom(lines, 0, NoHeader, "", path) == ScanFrom(lines, i, h, last, path)
    {
      var line := lines[i];
      if StartsWith(line, Sentinel) {
        return Success(Scanned(h, Some(LetterRuns(last))));
      }
      var next := ApplyHeaderLine(h, line, path);
      if next.Failure? {
        return Failure(next.error);
      }
      h := next.value;
      last := line;
      i := i + 1;
    }
    return Success(Scanned(h, None));
  }

  /** The line before `k`, or "" when `k` is the first line. */
  function Previous(lines: seq<string>, k: nat): string
    requires k <= |lines|
  {
    if k == 0 then "" else lines[k - 1]
  }

  /** Scanning stops at the first "***" line: the metadata are those of the lines
      before it and the column names are the letter runs of the line just before. */
  lemma {:induction false} ScanStopsAtSentinel(lines: seq<string>, i: nat, k: nat, h: Header, path: string)
    requires i <= k < |lines|
    requires StartsWith(lines[k], Sentinel)
    requires forall j :: i <= j < k ==> !StartsWith(lines[j], Sentinel)
    ensures ScanFrom(lines, i, h, Previous(lines, i), path)
      == (match FoldHeader(h, lines[i..k], path)
          case Success(hk) => Success(Scanned(hk, Some(LetterRuns(Previous(lines, k)))))
          case Failure(e) => Failure(e))
    decreases k - i
  {
    if i < k {
      assert lines[i..k][0] == lines[i];
      assert lines[i..k][1..] == lines[i + 1..k];
      match ApplyHeaderLine(h, lines[i], path)
      case Failure(_) =>
      case Success(h') => ScanStopsAtSentinel(lines, i + 1, k, h', path);
    } else {
      assert lines[i..k] == [];
    }
  }

  /** Without a "***" line the loop runs to the end and no column names exist. */
  lemma {:induction false} ScanWithoutSentinel(lines: seq<string>, i: nat, h: Header, last: string, path: string)
    requires i <= |lines|
    requires forall j :: i <= j < |lines| ==> !StartsWith(lines[j], Sentinel)
    ensures var r := ScanFrom(lines, i, h, last, path);
      r.Success? ==> r.value.columns.None?
    decreases |lines| - i
  {
    if i < |lines| {
      match ApplyHeaderLine(h, lines[i], path)
      case Failure(_) =>
      case Success(h') => ScanWithoutSentinel(lines, i + 1, h', lines[i], path);
    }
  }
}
