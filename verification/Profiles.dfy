/** The --stream-profile option: a comma-separated list of colon-separated entries, each of
    which describes one stream or, with a count, several. */
module Profiles {
  import opened Reassembly
  import opened Window
  import opened Wire

  // ---------------------------------------------------------------- splitting

  lemma TakeOneMore(s: string, i: nat)
    requires i < |s|
    ensures s[..i + 1] == [s[0]] + s[1..][..i]
  {
  }

  /** Where the first `d` is, or the length. */
  function FirstIndex(s: string, d: char): (i: nat)
    ensures i <= |s| && d !in s[..i] && (i < |s| ==> s[i] == d)
  {
    if s == "" || s[0] == d then 0
    else
      var i := FirstIndex(s[1..], d);
      TakeOneMore(s, i);
      i + 1
  }

  lemma {:induction false} FirstIndexIs(s: string, d: char, i: nat)
    requires i <= |s| && d !in s[..i] && (i < |s| ==> s[i] == d)
    ensures FirstIndex(s, d) == i
  {
    if i == 0 {
    } else {
      assert s[0] == s[..i][0];
      assert s[..i] == [s[0]] + s[1..][..i - 1];
      FirstIndexIs(s[1..], d, i - 1);
    }
  }

  /** What repeated getline yields: an empty part at the very end is not seen. */
  function Split(s: string, d: char): seq<string>
    decreases |s|
  {
    if s == "" then []
    else
      var i := FirstIndex(s, d);
      if i < |s| then [s[..i]] + Split(s[i + 1..], d) else [s]
  }

  lemma SplitLast(part: string, d: char)
    requires part != "" && d !in part
    ensures Split(part, d) == [part] + Split("", d)
  {
    assert part[..|part|] == part;
    FirstIndexIs(part, d, |part|);
  }

  lemma SplitFront(part: string, rest: string, d: char)
    requires d !in part
    ensures Split(part + [d] + rest, d) == [part] + Split(rest, d)
  {
    var s := part + [d] + rest;
    assert s[..|part|] == part && s[|part|] == d && s[|part| + 1..] == rest;
    FirstIndexIs(s, d, |part|);
  }

  /** Reads up to the next delimiter, which is dropped. */
  method GetLine(input: string, at: nat, delimiter: char) returns (part: string, next: nat)
    requires at < |input|
    ensures at < next <= |input|
    ensures Split(input[at..], delimiter) == [part] + Split(input[next..], delimiter)
  {
    hide Split;
    ghost var rest := input[at..];
    var i := at;
    part := "";
    while i < |input| && input[i] != delimiter
      invariant at <= i <= |input| && part == rest[..i - at] && delimiter !in part
    {
      assert rest[i - at] == input[i];
      part, i := part + [input[i]], i + 1;
    }
    if i < |input| {
      next := i + 1;
      assert rest == part + [delimiter] + input[next..];
      SplitFront(part, input[next..], delimiter);
    } else {
      next := |input|;
      assert rest == part && input[next..] == "";
      SplitLast(part, delimiter);
    }
  }

  lemma SplitNothing(d: char)
    ensures Split("", d) == []
  {
  }

  method SplitString(input: string, delimiter: char) returns (parts: seq<string>)
    ensures parts == Split(input, delimiter)
  {
    hide Split;
    parts := [];
    var at := 0;
    assert input[0..] == input;
    while at < |input|
      invariant at <= |input|
      invariant parts + Split(input[at..], delimiter) == Split(input, delimiter)
    {
      var part, next := GetLine(input, at, delimiter);
      assert parts + ([part] + Split(input[next..], delimiter)) == (parts + [part]) + Split(input[next..], delimiter);
      parts, at := parts + [part], next;
    }
    assert input[at..] == "";
    SplitNothing(delimiter);
  }

  function Join(parts: seq<string>, d: char): string {
    if parts == [] then ""
    else if |parts| == 1 then parts[0]
    else parts[0] + [d] + Join(parts[1..], d)
  }

  lemma SplitWhole(s: string, d: char)
    requires d !in s && s != ""
    ensures Split(s, d) == [s]
  {
    FirstIndexIs(s, d, |s|);
    assert s[..|s|] == s;
  }

  /** Splitting undoes joining, unless the last part is empty. */
  lemma {:induction false} SplitJoin(parts: seq<string>, d: char)
    requires forall i | 0 <= i < |parts| :: d !in parts[i]
    requires parts != [] ==> parts[|parts| - 1] != ""
    ensures Split(Join(parts, d), d) == parts
  {
    hide Split, FirstIndex;
    SplitNothing(d);
    if |parts| == 1 {
      SplitWhole(parts[0], d);
      assert parts == [parts[0]];
    } else if |parts| > 1 {
      SplitJoin(parts[1..], d);
      SplitFront(parts[0], Join(parts[1..], d), d);
      assert parts == [parts[0]] + parts[1..];
    }
  }

  /** A trailing delimiter goes unnoticed exactly after a part that is not empty. */
  lemma {:induction false} TrailingDelimiter(s: string, d: char)
    ensures Split(s + [d], d) == Split(s, d) <==> s != "" && s[|s| - 1] != d
    decreases |s|
  {
    hide Split;
    SplitNothing(d);
    var i := FirstIndex(s, d);
    if i < |s| {
      var part, tail := s[..i], s[i + 1..];
      assert s == part + [d] + tail && s + [d] == part + [d] + (tail + [d]);
      SplitFront(part, tail, d);
      SplitFront(part, tail + [d], d);
      assert ([part] + Split(tail, d))[1..] == Split(tail, d);
      assert ([part] + Split(tail + [d], d))[1..] == Split(tail + [d], d);
      TrailingDelimiter(tail, d);
    } else {
      assert s[..i] == s && s + [d] == s + [d] + "";
      SplitFront(s, "", d);
      if s != "" {
        SplitLast(s, d);
        assert s[|s| - 1] in s;
      }
    }
  }

  // ---------------------------------------------------------------- numbers

  predicate IsDigit(c: char) {
    '0' <= c <= '9'
  }

  predicate IsSpace(c: char) {
    c == ' ' || '\t' <= c <= '\r'
  }

  predicate AllDigits(s: string) {
    forall i | 0 <= i < |s| :: IsDigit(s[i])
  }

  function Value(digits: string): nat
    requires AllDigits(digits)
  {
    if digits == "" then 0
    else Value(digits[..|digits| - 1]) * 10 + (digits[|digits| - 1] as int - '0' as int)
  }

  function DigitRun(s: string): (n: nat)
    ensures n <= |s| && AllDigits(s[..n])
  {
    if s == "" || !IsDigit(s[0]) then 0
    else
      var n := DigitRun(s[1..]);
      TakeOneMore(s, n);
      n + 1
  }

  function SkipSpaces(s: string): string {
    if s != "" && IsSpace(s[0]) then SkipSpaces(s[1..]) else s
  }

  /** The library's unsigned 64-bit conversion: leading blanks and a sign are allowed, what
      follows the digits is ignored, and a negative number wraps around. */
  function ToUnsigned64(text: string): (v: Option<nat>)
    ensures v.Some? ==> v.value < TWO_TO_64
  {
    var t := SkipSpaces(text);
    var negative := t != "" && t[0] == '-';
    var u := if t != "" && (t[0] == '-' || t[0] == '+') then t[1..] else t;
    var n := DigitRun(u);
    if n == 0 || Value(u[..n]) >= TWO_TO_64 then None
    else if negative then Some((TWO_TO_64 - Value(u[..n])) % TWO_TO_64)
    else Some(Value(u[..n]))
  }

  function ToUnsigned32(text: string): (v: Option<nat>)
    ensures v.Some? ==> v.value < TWO_TO_32
  {
    var v := ToUnsigned64(text);
    if v.Some? && v.value >= TWO_TO_32 then None else v
  }

  function Decimal(n: nat): (s: string)
    ensures s != "" && AllDigits(s)
  {
    if n < 10 then ["0123456789"[n]] else Decimal(n / 10) + ["0123456789"[n % 10]]
  }

  lemma {:induction false} ValueOfDecimal(n: nat)
    ensures Value(Decimal(n)) == n
  {
    if n >= 10 {
      ValueOfDecimal(n / 10);
      var s := Decimal(n);
      assert s[..|s| - 1] == Decimal(n / 10);
    } else {
      assert Value("") == 0;
      assert Decimal(n)[..0] == "";
    }
  }

  lemma {:induction false} DigitsRunToTheEnd(s: string)
    requires AllDigits(s)
    ensures DigitRun(s) == |s|
  {
    if s == "" {
    } else {
      DigitsRunToTheEnd(s[1..]);
    }
  }

  /** A printed number is read back, by both conversions exactly when it fits. */
  lemma NumberRoundTrip(n: nat)
    ensures ToUnsigned64(Decimal(n)) == if n < TWO_TO_64 then Some(n) else None
    ensures ToUnsigned32(Decimal(n)) == if n < TWO_TO_32 then Some(n) else None
  {
    var s := Decimal(n);
    assert IsDigit(s[0]);
    DigitsRunToTheEnd(s);
    assert s[..|s|] == s;
    ValueOfDecimal(n);
  }

  // ---------------------------------------------------------------- entries

  datatype Field = MessageSize | SendPps | MaxInflight | Count

  datatype ProfileError =
    | WrongFieldCount(entry: string)
    | BadNumber(field: Field, text: string)
    | SizeTooSmall
    | NoInflight
    | NoCount

  datatype Result<+T> = Ok(value: T) | Err(error: ProfileError)

  /** One entry as written; without a count it stands for one stream. */
  datatype Entry = Entry(name: string, messageSize: nat, sendPps: nat, maxInflight: nat, count: Option<nat>)

  function Streams(e: Entry): nat {
    if e.count.Some? then e.count.value else 1
  }

  function IndexedName(e: Entry, i: nat): string {
    if Streams(e) == 1 then e.name else e.name + "-" + Decimal(i)
  }

  function Expand(e: Entry): (profiles: seq<Profile>)
    ensures |profiles| == Streams(e)
  {
    seq(Streams(e), i requires 0 <= i < Streams(e) => Profile(IndexedName(e, i), e.messageSize, e.maxInflight,
        e.sendPps))
  }

  function ReadEntry(raw: string): Result<Entry> {
    var fields := Split(raw, ':');
    if |fields| < 4 || |fields| > 5 then Err(WrongFieldCount(raw))
    else
      var size, pps, inflight := ToUnsigned32(fields[1]), ToUnsigned64(fields[2]), ToUnsigned32(fields[3]);
      var count := if |fields| == 5 then ToUnsigned32(fields[4]) else Some(1);
      if size.None? then Err(BadNumber(MessageSize, fields[1]))
      else if pps.None? then Err(BadNumber(SendPps, fields[2]))
      else if inflight.None? then Err(BadNumber(MaxInflight, fields[3]))
      else if count.None? then Err(BadNumber(Count, fields[4]))
      else if size.value < HEADER_SIZE then Err(SizeTooSmall)
      else if inflight.value == 0 then Err(NoInflight)
      else if count.value == 0 then Err(NoCount)
      else Ok(Entry(fields[0], size.value, pps.value, inflight.value, if |fields| == 5 then count else None))
  }

  /** Blank entries are skipped; the first bad one decides the outcome. */
  function ReadEntries(parts: seq<string>): Result<seq<Entry>> {
    if parts == [] then Ok([])
    else
      var earlier, raw := ReadEntries(parts[..|parts| - 1]), parts[|parts| - 1];
      if earlier.Err? || raw == "" then earlier
      else
        var entry := ReadEntry(raw);
        if entry.Err? then Err(entry.error) else Ok(earlier.value + [entry.value])
  }

  function ExpandAll(entries: seq<Entry>): seq<Profile> {
    if entries == [] then [] else ExpandAll(entries[..|entries| - 1]) + Expand(entries[|entries| - 1])
  }

  function ReadProfiles(value: string): Result<seq<Profile>> {
    var entries := ReadEntries(Split(value, ','));
    if entries.Err? then Err(entries.error) else Ok(ExpandAll(entries.value))
  }

  method ParseEntry(raw: string) returns (entry: Result<Entry>)
    ensures entry == ReadEntry(raw)
  {
    var fields := SplitString(raw, ':');
    if |fields| < 4 || |fields| > 5 {
      return Err(WrongFieldCount(raw));
    }
    var size := ToUnsigned32(fields[1]);
    if size.None? { return Err(BadNumber(MessageSize, fields[1])); }
    var pps := ToUnsigned64(fields[2]);
    if pps.None? { return Err(BadNumber(SendPps, fields[2])); }
    var inflight := ToUnsigned32(fields[3]);
    if inflight.None? { return Err(BadNumber(MaxInflight, fields[3])); }
    var count: Option<nat> := None;
    if |fields| == 5 {
      count := ToUnsigned32(fields[4]);
      if count.None? { return Err(BadNumber(Count, fields[4])); }
    }
    if size.value < HEADER_SIZE { return Err(SizeTooSmall); }
    if inflight.value == 0 { return Err(NoInflight); }
    if count == Some(0) { return Err(NoCount); }
    return Ok(Entry(fields[0], size.value, pps.value, inflight.value, count));
  }

  lemma ExpandedAt(e: Entry, i: nat)
    requires i < Streams(e)
    ensures Expand(e)[..i + 1] == Expand(e)[..i] + [Profile(IndexedName(e, i), e.messageSize, e.maxInflight, e.sendPps)]
  {
  }

  lemma {:induction false} FirstErrorStays(parts: seq<string>, k: nat)
    requires k <= |parts| && ReadEntries(parts[..k]).Err?
    ensures ReadEntries(parts) == ReadEntries(parts[..k])
  {
    hide ReadEntry;
    if k < |parts| {
      assert parts[..|parts| - 1][..k] == parts[..k];
      FirstErrorStays(parts[..|parts| - 1], k);
    } else {
      assert parts[..k] == parts;
    }
  }

  method ParseStreamProfiles(value: string) returns (profiles: Result<seq<Profile>>)
    ensures profiles == ReadProfiles(value)
  {
    hide ReadEntry, Split, Expand;
    var parts := SplitString(value, ',');
    var list: seq<Profile> := [];
    ghost var entries: seq<Entry> := [];
    for k := 0 to |parts|
      invariant ReadEntries(parts[..k]) == Ok(entries) && list == ExpandAll(entries)
    {
      assert parts[..k + 1][..k] == parts[..k];
      if parts[k] != "" {
        var entry := ParseEntry(parts[k]);
        if entry.Err? {
          FirstErrorStays(parts, k + 1);
          return Err(entry.error);
        }
        var e := entry.value;
        ghost var before := list;
        for i := 0 to Streams(e)
          invariant list == before + Expand(e)[..i]
        {
          ExpandedAt(e, i);
          list := list + [Profile(IndexedName(e, i), e.messageSize, e.maxInflight, e.sendPps)];
        }
        assert Expand(e)[..Streams(e)] == Expand(e);
        assert (entries + [e])[..|entries|] == entries;
        entries := entries + [e];
      }
    }
    assert parts[..|parts|] == parts;
    return Ok(list);
  }

  // ---------------------------------------------------------------- printing and reading back

  predicate ValidEntry(e: Entry) {
    && ',' !in e.name && ':' !in e.name
    && HEADER_SIZE <= e.messageSize < TWO_TO_32
    && e.sendPps < TWO_TO_64
    && 1 <= e.maxInflight < TWO_TO_32
    && (e.count.Some? ==> 1 <= e.count.value < TWO_TO_32)
  }

  function FieldsOf(e: Entry): seq<string> {
    [e.name, Decimal(e.messageSize), Decimal(e.sendPps), Decimal(e.maxInflight)]
    + if e.count.Some? then [Decimal(e.count.value)] else []
  }

  function RenderEntry(e: Entry): string {
    Join(FieldsOf(e), ':')
  }

  function RenderAll(entries: seq<Entry>): (parts: seq<string>)
    ensures |parts| == |entries|
  {
    seq(|entries|, i requires 0 <= i < |entries| => RenderEntry(entries[i]))
  }

  function Render(entries: seq<Entry>): string {
    Join(RenderAll(entries), ',')
  }

  lemma DecimalHasNo(n: nat, d: char)
    requires !IsDigit(d)
    ensures d !in Decimal(n)
  {
    forall i | 0 <= i < |Decimal(n)|
      ensures Decimal(n)[i] != d
    {
      assert IsDigit(Decimal(n)[i]);
    }
  }

  lemma {:induction false} JoinHasOnly(parts: seq<string>, d: char, other: char)
    requires other != d && forall i | 0 <= i < |parts| :: other !in parts[i]
    ensures other !in Join(parts, d)
  {
    if |parts| <= 1 {
    } else {
      JoinHasOnly(parts[1..], d, other);
    }
  }

  lemma FieldsHaveNoDelimiter(e: Entry)
    requires ValidEntry(e)
    ensures forall i | 0 <= i < |FieldsOf(e)| :: ':' !in FieldsOf(e)[i] && ',' !in FieldsOf(e)[i]
  {
    hide Decimal;
    var d, c := ':', ',';
    DecimalHasNo(e.messageSize, d);
    DecimalHasNo(e.messageSize, c);
    DecimalHasNo(e.sendPps, d);
    DecimalHasNo(e.sendPps, c);
    DecimalHasNo(e.maxInflight, d);
    DecimalHasNo(e.maxInflight, c);
    if e.count.Some? {
      DecimalHasNo(e.count.value, d);
      DecimalHasNo(e.count.value, c);
    }
  }

  lemma EntryRoundTrip(e: Entry)
    requires ValidEntry(e)
    ensures ReadEntry(RenderEntry(e)) == Ok(e)
    ensures RenderEntry(e) != "" && ',' !in RenderEntry(e)
  {
    hide Decimal, ToUnsigned32, ToUnsigned64, Split, Join;
    FieldsHaveNoDelimiter(e);
    SplitJoin(FieldsOf(e), ':');
    JoinHasOnly(FieldsOf(e), ':', ',');
    SplitNothing(':');
    NumberRoundTrip(e.messageSize);
    NumberRoundTrip(e.sendPps);
    NumberRoundTrip(e.maxInflight);
    if e.count.Some? {
      NumberRoundTrip(e.count.value);
    }
  }

  lemma {:induction false} EntriesRoundTrip(entries: seq<Entry>)
    requires forall i | 0 <= i < |entries| :: ValidEntry(entries[i])
    ensures ReadEntries(RenderAll(entries)) == Ok(entries)
  {
    hide ReadEntry, RenderEntry, ValidEntry;
    if entries == [] {
    } else {
      var earlier, e := entries[..|entries| - 1], entries[|entries| - 1];
      EntriesRoundTrip(earlier);
      EntryRoundTrip(e);
      assert RenderAll(entries)[..|entries| - 1] == RenderAll(earlier);
      assert entries == earlier + [e];
    }
  }

  /** Printing a list of entries and parsing it gives the streams they stand for. */
  lemma ProfilesRoundTrip(entries: seq<Entry>)
    requires forall i | 0 <= i < |entries| :: ValidEntry(entries[i])
    ensures ReadProfiles(Render(entries)) == Ok(ExpandAll(entries))
  {
    hide ReadEntry, RenderEntry, ValidEntry, ReadEntries, ExpandAll;
    EntriesRoundTrip(entries);
    forall i | 0 <= i < |entries|
      ensures ',' !in RenderAll(entries)[i] && RenderAll(entries)[i] != ""
    {
      EntryRoundTrip(entries[i]);
    }
    SplitJoin(RenderAll(entries), ',');
  }

  /** Parts come from the text they were split from, without the delimiter. */
  lemma {:induction false} PartsAreClean(s: string, d: char, other: char)
    ensures forall i | 0 <= i < |Split(s, d)| :: d !in Split(s, d)[i] && (other !in s ==> other !in Split(s, d)[i])
    decreases |s|
  {
    if s == "" {
    } else {
      var i := FirstIndex(s, d);
      assert s[..i] == s || i < |s|;
      if i < |s| {
        PartsAreClean(s[i + 1..], d, other);
      } else {
        assert s[..i] == s;
      }
    }
  }

  lemma ReadEntryIsValid(raw: string)
    requires ',' !in raw && ReadEntry(raw).Ok?
    ensures ValidEntry(ReadEntry(raw).value)
  {
    hide ToUnsigned64, Split;
    PartsAreClean(raw, ':', ',');
  }

  lemma {:induction false} ReadEntriesAreValid(parts: seq<string>)
    requires forall i | 0 <= i < |parts| :: ',' !in parts[i]
    requires ReadEntries(parts).Ok?
    ensures forall i | 0 <= i < |ReadEntries(parts).value| :: ValidEntry(ReadEntries(parts).value[i])
  {
    hide ReadEntry, ValidEntry;
    if parts == [] {
    } else {
      var raw := parts[|parts| - 1];
      ReadEntriesAreValid(parts[..|parts| - 1]);
      if raw != "" {
        ReadEntryIsValid(raw);
      }
    }
  }

  /** Every accepted text means the same as the canonical printing of its entries, whatever
      blanks, signs, trailing delimiters and blank entries it was written with. */
  lemma AcceptedTextIsCanonical(value: string)
    requires ReadProfiles(value).Ok?
    ensures var entries := ReadEntries(Split(value, ',')).value;
            && (forall i | 0 <= i < |entries| :: ValidEntry(entries[i]))
            && ReadProfiles(Render(entries)) == ReadProfiles(value)
  {
    hide ReadEntry, ValidEntry, ReadEntries, ExpandAll, Split, Render;
    PartsAreClean(value, ',', ',');
    ReadEntriesAreValid(Split(value, ','));
    ProfilesRoundTrip(ReadEntries(Split(value, ',')).value);
  }

  // ---------------------------------------------------------------- blank entries, and what is rejected

  lemma {:induction false} BlankPart(a: seq<string>, b: seq<string>)
    ensures ReadEntries(a + [""] + b) == ReadEntries(a + b)
  {
    hide ReadEntry;
    if b == [] {
      assert (a + [""])[..|a|] == a && a + [""] + [] == a + [""] && a + [] == a;
    } else {
      var front, last := b[..|b| - 1], b[|b| - 1];
      BlankPart(a, front);
      assert (a + [""] + b)[..|a| + |b|] == a + [""] + front;
      assert (a + b)[..|a| + |b| - 1] == a + front;
    }
  }

  lemma FirstIndexOf(s: string, d: char) returns (i: nat)
    ensures i <= |s| && d !in s[..i] && (i < |s| ==> s[i] == d)
  {
    i := FirstIndex(s, d);
  }

  /** A delimiter cuts a text in two, whatever stands on either side. */
  lemma {:induction false} SplitAtDelimiter(x: string, y: string, d: char)
    ensures Split(x + [d] + y, d) == Split(x + [d], d) + Split(y, d)
    decreases |x|
  {
    hide Split, FirstIndex;
    var i := FirstIndexOf(x, d);
    var part := x[..i];
    SplitNothing(d);
    if i < |x| {
      var tail := x[i + 1..];
      assert x + [d] + y == part + [d] + (tail + [d] + y);
      assert x + [d] == part + [d] + (tail + [d]);
      SplitFront(part, tail + [d] + y, d);
      SplitFront(part, tail + [d], d);
      SplitAtDelimiter(tail, y, d);
      assert [part] + (Split(tail + [d], d) + Split(y, d)) == ([part] + Split(tail + [d], d)) + Split(y, d);
    } else {
      assert part == x && x + [d] == x + [d] + "";
      SplitFront(x, y, d);
      SplitFront(x, "", d);
    }
  }

  lemma BlankBetween(x: string, y: string)
    ensures ReadProfiles(x + ",," + y) == ReadProfiles(x + "," + y)
  {
    hide Split, ReadEntries, ExpandAll;
    var d, nothing := ',', "";
    SplitNothing(d);
    SplitAtDelimiter(x, y, d);
    assert x + ",," + y == (x + [d]) + [d] + y && x + "," + y == x + [d] + y;
    SplitAtDelimiter(x + [d], y, d);
    SplitAtDelimiter(x, [d], d);
    assert (x + [d]) + [d] == x + [d] + [d];
    assert nothing + [d] + nothing == [d];
    SplitFront(nothing, nothing, d);
    assert Split([d], d) == [""];
    BlankPart(Split(x + [d], d), Split(y, d));
  }

  lemma BlankAtTheEnd(x: string)
    ensures ReadProfiles(x + ",") == ReadProfiles(x)
  {
    hide Split, ReadEntries, ExpandAll;
    var d, nothing := ',', "";
    SplitNothing(d);
    assert x + "," == x + [d];
    if x == "" {
      SplitFront(nothing, nothing, d);
      assert nothing + [d] + nothing == x + [d];
      var none: seq<string> := Split(x, d);
      BlankPart(none, none);
      assert none == none + none && Split(x + [d], d) == none + [""] + none;
    } else if x[|x| - 1] == d {
      var front := x[..|x| - 1];
      assert x == front + [d] && x + [d] == front + [d] + [d];
      SplitAtDelimiter(front, [d], d);
      SplitFront(nothing, nothing, d);
      assert nothing + [d] + nothing == [d];
      var parts, none := Split(x, d), Split(nothing, d);
      assert Split([d], d) == [""];
      BlankPart(parts, none);
      assert parts + [""] + none == parts + [""] == Split(x + [d], d) && parts + none == parts;
    } else {
      TrailingDelimiter(x, d);
    }
  }

  /** A blank entry between two others, in front or at the end changes nothing. */
  lemma BlankEntriesAreSkipped(x: string, y: string)
    ensures ReadProfiles(x + ",," + y) == ReadProfiles(x + "," + y)
    ensures ReadProfiles("," + y) == ReadProfiles(y)
    ensures ReadProfiles(x + ",") == ReadProfiles(x)
  {
    hide Split, ReadEntries, ExpandAll;
    var d, nothing := ',', "";
    SplitNothing(d);
    SplitFront(nothing, y, d);
    assert nothing + [d] + y == "," + y;
    BlankPart([], Split(y, d));
    assert [] + [""] + Split(y, d) == [""] + Split(y, d) && [] + Split(y, d) == Split(y, d);
    BlankBetween(x, y);
    BlankAtTheEnd(x);
  }

  /** The first entry that is neither blank nor readable. */
  ghost predicate FirstBad(parts: seq<string>, k: nat, e: ProfileError) {
    && k < |parts| && parts[k] != "" && ReadEntry(parts[k]) == Err(e)
    && forall j | 0 <= j < k :: parts[j] == "" || ReadEntry(parts[j]).Ok?
  }

  lemma {:induction false} EntriesAccepted(parts: seq<string>)
    ensures ReadEntries(parts).Ok? <==> forall j | 0 <= j < |parts| :: parts[j] == "" || ReadEntry(parts[j]).Ok?
  {
    hide ReadEntry;
    if parts == [] {
    } else {
      var front := parts[..|parts| - 1];
      EntriesAccepted(front);
      assert forall j | 0 <= j < |front| :: front[j] == parts[j];
      assert parts == front + [parts[|parts| - 1]];
    }
  }

  lemma FirstBadDecides(parts: seq<string>, k: nat, e: ProfileError)
    requires FirstBad(parts, k, e)
    ensures ReadEntries(parts) == Err(e)
  {
    hide ReadEntry;
    EntriesAccepted(parts[..k]);
    assert parts[..k + 1][..k] == parts[..k];
    FirstErrorStays(parts, k + 1);
  }

  lemma {:induction false} SomethingIsBad(parts: seq<string>) returns (k: nat)
    requires ReadEntries(parts).Err?
    ensures FirstBad(parts, k, ReadEntries(parts).error)
  {
    hide ReadEntry;
    var front := parts[..|parts| - 1];
    if ReadEntries(front).Err? {
      k := SomethingIsBad(front);
      assert forall j | 0 <= j < |front| :: front[j] == parts[j];
    } else {
      EntriesAccepted(front);
      k := |parts| - 1;
      assert forall j | 0 <= j < |front| :: front[j] == parts[j];
    }
  }

  /** A text is rejected with an error exactly when its first bad entry has that error, and
      accepted exactly when every entry is blank or readable. */
  lemma RejectedTexts(value: string, e: ProfileError)
    ensures ReadProfiles(value) == Err(e) <==> exists k: nat :: FirstBad(Split(value, ','), k, e)
    ensures ReadProfiles(value).Ok? <==>
              forall part | part in Split(value, ',') :: part == "" || ReadEntry(part).Ok?
  {
    hide Split, ReadEntry, ReadEntries, ExpandAll, FirstBad;
    var parts := Split(value, ',');
    EntriesAccepted(parts);
    if ReadEntries(parts).Err? {
      var k := SomethingIsBad(parts);
    }
    if k: nat :| FirstBad(parts, k, e) {
      FirstBadDecides(parts, k, e);
    }
  }

  /** The fields spell out the entry. */
  predicate Spells(fields: seq<string>, e: Entry) {
    && |fields| == (if e.count.Some? then 5 else 4) && fields[0] == e.name
    && ToUnsigned32(fields[1]) == Some(e.messageSize) && ToUnsigned64(fields[2]) == Some(e.sendPps)
    && ToUnsigned32(fields[3]) == Some(e.maxInflight)
    && (e.count.Some? ==> ToUnsigned32(fields[4]) == e.count)
  }

  /** An entry is readable exactly when its fields spell out one within the limits. */
  lemma ReadableEntries(raw: string, e: Entry)
    ensures ReadEntry(raw) == Ok(e) <==>
              && Spells(Split(raw, ':'), e)
              && e.messageSize >= 24 && e.maxInflight >= 1 && (e.count.Some? ==> e.count.value >= 1)
  {
    hide Split, ToUnsigned32, ToUnsigned64;
  }

  // ---------------------------------------------------------------- what is accepted

  function TotalStreams(entries: seq<Entry>): nat {
    if entries == [] then 0 else TotalStreams(entries[..|entries| - 1]) + Streams(entries[|entries| - 1])
  }

  lemma {:induction false} ExpansionLength(entries: seq<Entry>)
    ensures |ExpandAll(entries)| == TotalStreams(entries)
  {
    if entries == [] {
    } else {
      ExpansionLength(entries[..|entries| - 1]);
    }
  }

  /** Profile `i` of an entry. */
  predicate StandsFor(x: Profile, e: Entry, i: nat) {
    && x.name == (if Streams(e) == 1 then e.name else e.name + "-" + Decimal(i))
    && x.messageSize == e.messageSize && x.maxInflight == e.maxInflight && x.sendPps == e.sendPps
  }

  lemma ExpandedStandsFor(e: Entry)
    ensures forall i | 0 <= i < Streams(e) :: StandsFor(Expand(e)[i], e, i)
  {
    hide Decimal;
  }

  /** From place `from` on the profiles are those of one entry. */
  predicate ExpandsAt(profiles: seq<Profile>, from: nat, e: Entry) {
    && from + Streams(e) <= |profiles|
    && forall s | from <= s < from + Streams(e) :: StandsFor(profiles[s], e, s - from)
  }

  lemma ExpandsBefore(profiles: seq<Profile>, more: seq<Profile>, from: nat, e: Entry)
    requires ExpandsAt(profiles, from, e)
    ensures ExpandsAt(profiles + more, from, e)
  {
    hide StandsFor;
  }

  lemma ExpandsLast(profiles: seq<Profile>, e: Entry)
    ensures ExpandsAt(profiles + Expand(e), |profiles|, e)
  {
    hide Decimal, Expand;
    ExpandedStandsFor(e);
  }

  /** The entries expand one after the other: entry `k` to its own number of profiles, which
      repeat its numbers; there are as many profiles as the counts add up to. */
  lemma {:induction false} ExpansionIsComplete(entries: seq<Entry>, k: nat)
    requires k < |entries|
    ensures |ExpandAll(entries)| == TotalStreams(entries)
    ensures ExpandsAt(ExpandAll(entries), TotalStreams(entries[..k]), entries[k])
  {
    hide ExpandsAt, Expand;
    var last := |entries| - 1;
    var earlier := entries[..last];
    ExpansionLength(entries);
    if k < last {
      ExpansionIsComplete(earlier, k);
      assert earlier[..k] == entries[..k] && earlier[k] == entries[k];
      ExpandsBefore(ExpandAll(earlier), Expand(entries[last]), TotalStreams(entries[..k]), entries[k]);
    } else {
      ExpansionLength(earlier);
      ExpandsLast(ExpandAll(earlier), entries[k]);
    }
  }

  /** The streams of one entry have different names. */
  lemma IndexedNamesAreDistinct(e: Entry, i: nat, j: nat)
    requires i < j < Streams(e)
    ensures IndexedName(e, i) != IndexedName(e, j)
  {
    hide Decimal;
    var prefix := e.name + "-";
    assert IndexedName(e, i)[|prefix|..] == Decimal(i) && IndexedName(e, j)[|prefix|..] == Decimal(j);
    ValueOfDecimal(i);
    ValueOfDecimal(j);
  }

  lemma {:induction false} ExpandedAreValid(entries: seq<Entry>)
    requires forall i | 0 <= i < |entries| :: ValidEntry(entries[i])
    ensures forall s | 0 <= s < |ExpandAll(entries)| ::
              ValidProfile(ExpandAll(entries)[s]) && ExpandAll(entries)[s].sendPps < TWO_TO_64
  {
    hide IndexedName;
    if entries == [] {
    } else {
      ExpandedAreValid(entries[..|entries| - 1]);
    }
  }

  /** Accepted profiles meet what the rest of the program relies on. */
  lemma AcceptedProfilesAreValid(value: string)
    requires ReadProfiles(value).Ok?
    ensures var profiles := ReadProfiles(value).value;
            ValidProfiles(profiles) && forall s | 0 <= s < |profiles| :: profiles[s].sendPps < TWO_TO_64
  {
    hide ReadEntry, ReadEntries, Split;
    PartsAreClean(value, ',', ',');
    ReadEntriesAreValid(Split(value, ','));
    ExpandedAreValid(ReadEntries(Split(value, ',')).value);
  }

  /** Nothing stops an entry from having no name. The QUIC client then never serves its
      stream, whatever its window and rate. */
  lemma EmptyNameIsAccepted(size: nat, pps: nat, inflight: nat)
    requires HEADER_SIZE <= size < TWO_TO_32 && pps < TWO_TO_64 && 1 <= inflight < TWO_TO_32
    ensures ReadProfiles(Render([Entry("", size, pps, inflight, None)])) == Ok([Profile("", size, inflight, pps)])
  {
    hide Decimal, ReadProfiles, Render;
    var e := Entry("", size, pps, inflight, None);
    ProfilesRoundTrip([e]);
    assert [e][..0] == [] && ExpandAll([]) == [];
    assert ExpandAll([e]) == [] + Expand(e) == Expand(e);
    assert Expand(e) == [Profile("", size, inflight, pps)];
  }

  // ---------------------------------------------------------------- stream identifiers

  const TWO_TO_16: nat := 0x1_0000

  /** The SCTP stream of an ordinal, truncated to 16 bits. */
  function StreamIdFromOrdinal(base: nat, ordinal: nat): (id: nat)
    ensures id < TWO_TO_16
  {
    (base + ordinal) % TWO_TO_16
  }

  /** The receive handler turns stream identifiers back into ordinals by subtraction. That
      undoes the truncation for every stream exactly when the identifiers fit in 16 bits. */
  lemma StreamIdsAreExact(base: nat, count: nat)
    requires base < TWO_TO_16
    ensures (forall o: nat | o < count :: StreamIdFromOrdinal(base, o) - base == o) <==> base + count <= TWO_TO_16
  {
    if base + count > TWO_TO_16 {
      var o: nat := TWO_TO_16 - base;
      assert StreamIdFromOrdinal(base, o) == 0;
      assert !(StreamIdFromOrdinal(base, o) - base == o);
    }
  }
}
