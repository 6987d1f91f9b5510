/**
 * The text GetPortfolio builds (chaincode/assetcc.go:246-249): Go's `%d` verb and the
 * header and per-holding lines of the portfolio summary.
 */
module Format {

  predicate IsDigits(s: string) {
    forall i :: 0 <= i < |s| ==> '0' <= s[i] <= '9'
  }

  /** The value of a string of decimal digits, most significant first. */
  function DecimalValue(s: string): int
    decreases |s|
  {
    if s == [] then 0 else DecimalValue(s[..|s| - 1]) * 10 + (s[|s| - 1] as int - '0' as int)
  }

  /** The value of `%d` output: an optional minus sign, then decimal digits. */
  function SignedValue(s: string): int {
    if |s| > 0 && s[0] == '-' then -DecimalValue(s[1..]) else DecimalValue(s)
  }

  /** `%d` of a natural number: the shortest string of decimal digits denoting `n`. */
  function Decimal(n: nat): (s: string)
    ensures |s| >= 1 && IsDigits(s)
    ensures DecimalValue(s) == n
    ensures s[0] == '0' ==> s == "0"
    decreases n
  {
    var last := [('0' as int + n % 10) as char];
    if n < 10 then last else Decimal(n / 10) + last
  }

  /** Go's `%d` of an int: a minus sign for negative values, then the digits of the magnitude. */
  function FormatInt(x: int): (s: string)
    ensures SignedValue(s) == x
    ensures |s| >= 1 && (s[0] == '-' <==> x < 0)
    ensures var digits := if x < 0 then s[1..] else s;
      |digits| >= 1 && IsDigits(digits) && (digits[0] == '0' ==> digits == "0")
  {
    if x < 0 then
      var d := Decimal(-x);
      assert ("-" + d)[1..] == d;
      "-" + d
    else Decimal(x)
  }

  /**
   * The first three lines of a portfolio summary: the identifier after "Investor ID: ", the
   * balance in `%d` after "\nBalance: ", then "\nSubscribed Assets:\n".
   */
  function Header(investorId: string, balance: int): (h: string)
    ensures var prefix := "Investor ID: " + investorId + "\nBalance: ";
      var suffix := "\nSubscribed Assets:\n";
      && |h| >= |prefix| + |suffix|
      && h[..|prefix|] == prefix
      && h[|h| - |suffix|..] == suffix
      && SignedValue(h[|prefix|..|h| - |suffix|]) == balance
      && h[|prefix|..|h| - |suffix|] == FormatInt(balance)
  {
    var prefix := "Investor ID: " + investorId + "\nBalance: ";
    var amount := FormatInt(balance);
    var suffix := "\nSubscribed Assets:\n";
    assert (prefix + amount + suffix)[..|prefix|] == prefix;
    assert (prefix + amount + suffix)[|prefix| + |amount|..] == suffix;
    assert (prefix + amount + suffix)[|prefix|..|prefix| + |amount|] == amount;
    prefix + amount + suffix
  }

  /**
   * The summary line of one holdings entry: the ISIN after "- Asset: ", the units in `%d`
   * after ", Units: ", then a newline.
   */
  function HoldingLine(isin: string, units: int): (l: string)
    ensures var prefix := "- Asset: " + isin + ", Units: ";
      && |l| >= |prefix| + 1
      && l[..|prefix|] == prefix
      && l[|l| - 1] == '\n'
      && SignedValue(l[|prefix|..|l| - 1]) == units
      && l[|prefix|..|l| - 1] == FormatInt(units)
  {
    var prefix := "- Asset: " + isin + ", Units: ";
    var amount := FormatInt(units);
    assert (prefix + amount + "\n")[..|prefix|] == prefix;
    assert (prefix + amount + "\n")[|prefix|..|prefix| + |amount|] == amount;
    prefix + amount + "\n"
  }

  /** The lines of the holdings entries listed by `order`, in that order. */
  function HoldingLines(holdings: map<string, int>, order: seq<string>): seq<string>
    requires forall k :: k in order ==> k in holdings
  {
    seq(|order|, i requires 0 <= i < |order| => HoldingLine(order[i], holdings[order[i]]))
  }

  lemma HoldingLinesSnoc(holdings: map<string, int>, order: seq<string>, isin: string)
    requires forall k :: k in order ==> k in holdings
    requires isin in holdings
    ensures HoldingLines(holdings, order + [isin]) == HoldingLines(holdings, order) + [HoldingLine(isin, holdings[isin])]
  {
  }

  /** Lines joined end to end. */
  function Concat(lines: seq<string>): string
    decreases |lines|
  {
    if lines == [] then "" else Concat(lines[..|lines| - 1]) + lines[|lines| - 1]
  }

  lemma ConcatSnoc(lines: seq<string>, line: string)
    ensures Concat(lines + [line]) == Concat(lines) + line
  {
    assert (lines + [line])[..|lines|] == lines;
  }

  lemma ConcatSingle(line: string)
    ensures Concat([line]) == line
  {
    assert [line][..0] == [];
  }

  /** `order` lists every key of `keys` exactly once: one possible iteration order of a Go map. */
  ghost predicate Enumerates(order: seq<string>, keys: set<string>) {
    && (forall i, j :: 0 <= i < j < |order| ==> order[i] != order[j])
    && (forall k :: k in order <==> k in keys)
  }
}
