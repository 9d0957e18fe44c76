/** String building used by the permission display and the SQL filter clause. */
module Text {
  import opened Common

  /** Python's `sep.join(parts)`. */
  function Join(parts: seq<string>, sep: string): string
  {
    if |parts| == 0 then ""
    else if |parts| == 1 then parts[0]
    else parts[0] + sep + Join(parts[1..], sep)
  }

  lemma JoinSingle(part: string, sep: string)
    ensures Join([part], sep) == part
  {
  }

  lemma JoinPair(first: string, second: string, sep: string)
    ensures Join([first, second], sep) == first + sep + second
  {
    assert [first, second][1..] == [second];
  }

  /** A join starts with its first part. */
  lemma JoinStartsWithFirst(parts: seq<string>, sep: string)
    requires |parts| > 0
    ensures |Join(parts, sep)| >= |parts[0]| && Join(parts, sep)[..|parts[0]|] == parts[0]
  {
  }

  predicate IsDigit(c: char)
  {
    '0' <= c <= '9'
  }

  /** Python's `str(n)` for a non-negative integer. */
  function DecimalString(n: nat): (r: string)
    ensures |r| >= 1
    ensures forall i :: 0 <= i < |r| ==> IsDigit(r[i])
    decreases n
  {
    if n < 10 then [('0' as int + n) as char]
    else DecimalString(n / 10) + [('0' as int + n % 10) as char]
  }

  /** Reads a string of decimal digits back as a number. */
  function DecimalValue(s: string): nat
    requires forall i :: 0 <= i < |s| ==> IsDigit(s[i])
    decreases |s|
  {
    if s == [] then 0
    else
      assert IsDigit(s[|s| - 1]);
      10 * DecimalValue(s[..|s| - 1]) + (s[|s| - 1] as int - '0' as int)
  }

  /** The number printed in a " (+n lainnya)" suffix can be read back. */
  lemma {:induction false} DecimalRoundTrip(n: nat)
    ensures DecimalValue(DecimalString(n)) == n
    decreases n
  {
    var s := DecimalString(n);
    if n >= 10 {
      DecimalRoundTrip(n / 10);
      assert s[..|s| - 1] == DecimalString(n / 10);
    }
  }

  /** The quoted form of one value, `f"'{x}'"`. */
  function Quote(name: string): string
  {
    "'" + name + "'"
  }

  /** `','.join([f"'{x}'" for x in names])`: the list inside an SQL `IN (...)`. */
  function QuotedList(names: seq<string>): string
  {
    Join(seq(|names|, i requires 0 <= i < |names| => Quote(names[i])), ",")
  }

  /** Index of the first single quote in `s`, or `|s|` when there is none. */
  function QuoteIndex(s: string): (k: nat)
    ensures k <= |s|
    ensures forall i :: 0 <= i < k ==> s[i] != '\''
    ensures k < |s| ==> s[k] == '\''
  {
    if s == [] || s[0] == '\'' then 0 else 1 + QuoteIndex(s[1..])
  }

  /** Reads back a comma-separated list of single-quoted values. */
  function ParseQuotedList(s: string): Option<seq<string>>
    decreases |s|
  {
    if |s| < 2 || s[0] != '\'' then None
    else
      var k := 1 + QuoteIndex(s[1..]);
      if k == |s| then None
      else if k + 1 == |s| then Some([s[1..k]])
      else if s[k + 1] != ',' then None
      else match ParseQuotedList(s[k + 2..]) {
        case None => None
        case Some(rest) => Some([s[1..k]] + rest)
      }
  }

  predicate QuoteFree(name: string)
  {
    forall i :: 0 <= i < |name| ==> name[i] != '\''
  }

  lemma QuotedListUnfold(names: seq<string>)
    requires |names| > 0
    ensures QuotedList(names) ==
      Quote(names[0]) + (if |names| == 1 then "" else "," + QuotedList(names[1..]))
  {
    var quoted := seq(|names|, i requires 0 <= i < |names| => Quote(names[i]));
    assert quoted[1..] == seq(|names| - 1, i requires 0 <= i < |names| - 1 => Quote(names[1..][i]));
  }

  lemma {:induction false} QuoteIndexSkipsName(name: string, tail: string)
    requires QuoteFree(name)
    ensures QuoteIndex(name + "'" + tail) == |name|
    decreases |name|
  {
    if name != [] {
      assert (name + "'" + tail)[1..] == name[1..] + "'" + tail;
      QuoteIndexSkipsName(name[1..], tail);
    }
  }

  lemma ParseSingle(name: string)
    requires QuoteFree(name)
    ensures ParseQuotedList(Quote(name)) == Some([name])
  {
    var s := Quote(name);
    assert s[1..] == name + "'" + "";
    QuoteIndexSkipsName(name, "");
    assert s[1..1 + |name|] == name;
  }

  lemma ParseFirst(name: string, tail: string)
    requires QuoteFree(name)
    ensures ParseQuotedList(Quote(name) + "," + tail) ==
      match ParseQuotedList(tail) {
        case None => None
        case Some(rest) => Some([name] + rest)
      }
  {
    var s := Quote(name) + "," + tail;
    assert s[1..] == name + "'" + ("," + tail);
    QuoteIndexSkipsName(name, "," + tail);
    var k := 1 + |name|;
    assert s[1..k] == name;
    assert s[k + 1] == ',';
    assert s[k + 2..] == tail;
  }

  /** A list of quote-free names reads back from its quoted form unchanged. */
  lemma {:induction false} QuotedListRoundTrip(names: seq<string>)
    requires |names| > 0
    requires forall i :: 0 <= i < |names| ==> QuoteFree(names[i])
    ensures ParseQuotedList(QuotedList(names)) == Some(names)
    decreases |names|
  {
    QuotedListUnfold(names);
    if |names| == 1 {
      ParseSingle(names[0]);
      assert names == [names[0]];
    } else {
      var tail := QuotedList(names[1..]);
      assert QuotedList(names) == Quote(names[0]) + "," + tail;
      assert forall i :: 0 <= i < |names[1..]| ==> names[1..][i] == names[i + 1];
      QuotedListRoundTrip(names[1..]);
      ParseFirst(names[0], tail);
      assert [names[0]] + names[1..] == names;
    }
  }

  /** Every value the reader gives back is free of single quotes. */
  lemma {:induction false} ParsedNamesAreQuoteFree(s: string)
    ensures ParseQuotedList(s).Some? ==>
      forall i :: 0 <= i < |ParseQuotedList(s).value| ==> QuoteFree(ParseQuotedList(s).value[i])
    decreases |s|
  {
    if ParseQuotedList(s).Some? {
      var k := 1 + QuoteIndex(s[1..]);
      assert forall j :: 1 <= j < k ==> s[j] == s[1..][j - 1];
      assert QuoteFree(s[1..k]);
      if k + 1 < |s| {
        ParsedNamesAreQuoteFree(s[k + 2..]);
      }
    }
  }

  /** Values are quoted verbatim: a list holding a name with a quote never reads back as itself. */
  lemma QuoteInNameBreaksList(names: seq<string>, i: nat)
    requires i < |names| && !QuoteFree(names[i])
    ensures ParseQuotedList(QuotedList(names)) != Some(names)
  {
    ParsedNamesAreQuoteFree(QuotedList(names));
  }

  /** The quoted form of "O'BRIEN", and its failure to read back. */
  lemma QuotedApostropheExample()
    ensures QuotedList(["O'BRIEN"]) == "'O'BRIEN'"
    ensures ParseQuotedList(QuotedList(["O'BRIEN"])) == None
  {
    QuotedListUnfold(["O'BRIEN"]);
    assert QuoteIndex("O'BRIEN'") == 1;
  }
}
