/**
 * The `findCards` search string: the fixed note type and deck, the tag,
 * and an ` edited:N` clause only when the `--edited` flag is truthy.
 */
module Query {
  import opened Wrappers

  const DeckName: string := "Articles"
  const NoteType: string := "Pocket Article"
  const EditedKeyword: string := " edited:"

  predicate IsDigit(c: char)
  {
    '0' <= c <= '9'
  }

  predicate AllDigits(s: string)
  {
    forall i :: 0 <= i < |s| ==> IsDigit(s[i])
  }

  function DigitChar(d: int): (c: char)
    requires 0 <= d < 10
    ensures IsDigit(c) && c as int - '0' as int == d
  {
    ('0' as int + d) as char
  }

  /** The decimal digits of `n`, most significant first, without leading zeros. */
  function NatDigits(n: nat): (r: string)
    ensures |r| >= 1 && AllDigits(r)
    ensures n >= 10 ==> r[0] != '0'
    decreases n
  {
    if n < 10 then [DigitChar(n)] else NatDigits(n / 10) + [DigitChar(n % 10)]
  }

  /** Python's `str` of an integer: a minus sign for negatives, then the digits. */
  function IntString(n: int): string
  {
    if n < 0 then "-" + NatDigits(-n) else NatDigits(n)
  }

  /** The value of a string of decimal digits. */
  function DigitsValue(s: string): nat
    requires AllDigits(s)
  {
    if s == [] then 0
    else DigitsValue(s[..|s| - 1]) * 10 + (s[|s| - 1] as int - '0' as int)
  }

  /** Reads a decimal integer back: an optional minus sign, then at least one digit. */
  function ParseInt(s: string): Option<int>
  {
    if |s| > 1 && s[0] == '-' && AllDigits(s[1..]) then Some(0 - DigitsValue(s[1..]) as int)
    else if |s| > 0 && AllDigits(s) then Some(DigitsValue(s))
    else None
  }

  lemma {:induction false} NatDigitsValue(n: nat)
    ensures DigitsValue(NatDigits(n)) == n
    decreases n
  {
    if n >= 10 {
      NatDigitsValue(n / 10);
      var r := NatDigits(n);
      assert r[..|r| - 1] == NatDigits(n / 10);
    }
  }

  /** The decimal text of an integer reads back as that integer. */
  lemma IntStringRoundTrip(n: int)
    ensures ParseInt(IntString(n)) == Some(n)
  {
    var s := IntString(n);
    if n < 0 {
      var digits := NatDigits(-n);
      assert s == "-" + digits;
      assert s[1..] == digits && AllDigits(s[1..]);
      NatDigitsValue(-n);
      assert |s| > 1 && s[0] == '-';
      assert ParseInt(s) == Some(0 - DigitsValue(digits) as int);
    } else {
      assert s == NatDigits(n);
      NatDigitsValue(n);
      assert s[0] != '-';
      assert ParseInt(s) == Some(DigitsValue(s) as int);
    }
  }

  /** Python truthiness of the optional `--edited` value: absent and 0 are both false. */
  predicate EditedGiven(edited: Option<int>)
  {
    edited.Some? && edited.value != 0
  }

  /** The note-type and deck filters and the opening of the tag filter. */
  const TagPrefix: string := "\"note:" + NoteType + "\" \"deck:" + DeckName + "\" \"tag:"

  /** The query without the edited clause. */
  function BaseQuery(tag: string): string
  {
    TagPrefix + tag + "\""
  }

  /**
   * The query sent with `findCards`. It always starts with the note-type,
   * deck and tag filters; it is longer than that exactly when `--edited` is
   * truthy, and then what follows is ` edited:` and a numeral that reads
   * back as the flag's value.
   */
  function FindCardsQuery(tag: string, edited: Option<int>): (q: string)
    ensures |BaseQuery(tag)| <= |q| && q[..|BaseQuery(tag)|] == BaseQuery(tag)
    ensures q == BaseQuery(tag) <==> !EditedGiven(edited)
    ensures EditedGiven(edited) ==>
      var b := |BaseQuery(tag)|;
      && |q| > b + |EditedKeyword|
      && q[b..b + |EditedKeyword|] == EditedKeyword
      && ParseInt(q[b + |EditedKeyword|..]) == Some(edited.value)
  {
    var base := BaseQuery(tag);
    if EditedGiven(edited) then
      var q := base + EditedKeyword + IntString(edited.value);
      IntStringRoundTrip(edited.value);
      assert q[|base| + |EditedKeyword|..] == IntString(edited.value);
      assert q[..|base|] == base;
      q
    else base
  }

  lemma BaseQueryParts(tag: string)
    ensures var b, p := BaseQuery(tag), |TagPrefix|;
      |b| == p + |tag| + 1 && b[..p] == TagPrefix && b[p..p + |tag|] == tag && b[p + |tag|] == '"'
  {
    var b, p := BaseQuery(tag), |TagPrefix|;
    assert b == TagPrefix + tag + "\"";
    assert b[..p] == TagPrefix;
    assert b[p..p + |tag|] == tag;
  }

  /** The tag appears verbatim right after the fixed filters, closed by a quote. */
  lemma QueryCarriesTag(tag: string, edited: Option<int>)
    ensures var q, p := FindCardsQuery(tag, edited), |TagPrefix|;
      && |q| > p + |tag|
      && q[..p] == TagPrefix
      && q[p..p + |tag|] == tag
      && q[p + |tag|] == '"'
  {
    var q := FindCardsQuery(tag, edited);
    var b := BaseQuery(tag);
    var p := |TagPrefix|;
    BaseQueryParts(tag);
    assert q[..|b|] == b;
    assert q[..p] == b[..p];
    assert q[p..p + |tag|] == b[p..p + |tag|];
    assert q[p + |tag|] == b[p + |tag|];
  }
}
