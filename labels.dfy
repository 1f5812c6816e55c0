/** Tab labels of group tabs: `<1-based position>: <key>`, where an empty key is shown
    as `Data label`. The position is written in decimal, as JavaScript's `+` does when
    it joins a number to a string. `ParseLabel` is the inverse used to show that a
    label determines the position it was made for. */
module Labels {
  import opened Wrappers

  const Separator: string := ": "
  const EmptyKeyText: string := "Data label"
  /** What JavaScript's `+` produces when a missing attribute is joined to a string. */
  const UndefinedText: string := "undefined"

  predicate IsDigit(c: char) { '0' <= c <= '9' }

  predicate AllDigits(s: string) { forall i | 0 <= i < |s| :: IsDigit(s[i]) }

  function DigitChar(d: nat): (c: char)
    requires d < 10
    ensures IsDigit(c) && c as int - '0' as int == d
  {
    ('0' as int + d) as char
  }

  function DigitValue(c: char): nat
    requires IsDigit(c)
  {
    c as int - '0' as int
  }

  /** The decimal representation of `n`, without leading zeros. */
  function DecimalString(n: nat): (s: string)
    ensures |s| > 0 && AllDigits(s)
    ensures |s| > 1 ==> s[0] != '0'
    decreases n
  {
    if n < 10 then [DigitChar(n)] else DecimalString(n / 10) + [DigitChar(n % 10)]
  }

  /** The number a string of digits denotes. */
  function DecimalValue(s: string): nat
    requires AllDigits(s)
    decreases |s|
  {
    if s == [] then 0 else DecimalValue(s[..|s| - 1]) * 10 + DigitValue(s[|s| - 1])
  }

  lemma {:induction false} DecimalRoundTrip(n: nat)
    ensures DecimalValue(DecimalString(n)) == n
    decreases n
  {
    if n >= 10 {
      var s := DecimalString(n);
      assert s[..|s| - 1] == DecimalString(n / 10);
      DecimalRoundTrip(n / 10);
    }
  }

  /** The label text of a key: the key itself, `Data label` for the empty key, and
      `undefined` for a group that has no key attribute at all. */
  function KeyText(key: Option<string>): (t: string)
  {
    match key
    case None => UndefinedText
    case Some(k) => if k == "" then EmptyKeyText else k
  }

  /** The title of the tab of the group at 1-based `position` whose key is `key`. */
  function Label(position: nat, key: Option<string>): string
  {
    DecimalString(position) + Separator + KeyText(key)
  }

  /** The length of the longest prefix of `s` made of digits. */
  function LeadingDigits(s: string): (n: nat)
    ensures n <= |s| && AllDigits(s[..n])
    ensures n < |s| ==> !IsDigit(s[n])
  {
    if s == [] || !IsDigit(s[0]) then 0
    else
      var m := LeadingDigits(s[1..]);
      assert s[..m + 1] == [s[0]] + s[1..][..m];
      m + 1
  }

  /** The position and key text a label was made of, or None when `s` does not
      have the `<digits>: ` shape. */
  function ParseLabel(s: string): Option<(nat, string)>
  {
    var n := LeadingDigits(s);
    if 0 < n && n + |Separator| <= |s| && s[n..n + |Separator|] == Separator
    then Some((DecimalValue(s[..n]), s[n + |Separator|..]))
    else None
  }

  lemma {:induction false} LeadingDigitsOfDigitsThenColon(d: string, rest: string)
    requires AllDigits(d) && |rest| > 0 && rest[0] == ':'
    ensures LeadingDigits(d + rest) == |d|
    decreases |d|
  {
    var s := d + rest;
    if d != [] {
      assert s[0] == d[0] && IsDigit(s[0]);
      assert s[1..] == d[1..] + rest;
      LeadingDigitsOfDigitsThenColon(d[1..], rest);
      assert LeadingDigits(s) == LeadingDigits(s[1..]) + 1;
    } else {
      assert s == rest && !IsDigit(s[0]);
    }
  }

  /** Parsing a label gives back the position and the key text it was made from. */
  lemma ParseLabelRoundTrip(position: nat, key: Option<string>)
    ensures ParseLabel(Label(position, key)) == Some((position, KeyText(key)))
  {
    var d := DecimalString(position);
    var rest := Separator + KeyText(key);
    var s := d + rest;
    assert s == Label(position, key);
    LeadingDigitsOfDigitsThenColon(d, rest);
    var n := |d|;
    assert s[..n] == d by { assert forall i | 0 <= i < n :: s[i] == d[i]; }
    assert s[n..n + 2] == Separator by { assert s[n] == ':' && s[n + 1] == ' '; }
    assert s[n + 2..] == KeyText(key);
    DecimalRoundTrip(position);
  }

  /** Two group tabs at different positions never carry the same label, whatever
      their keys are. */
  lemma LabelsDistinguishPositions(i: nat, j: nat, ki: Option<string>, kj: Option<string>)
    requires i != j
    ensures Label(i, ki) != Label(j, kj)
  {
    ParseLabelRoundTrip(i, ki);
    ParseLabelRoundTrip(j, kj);
  }
}
