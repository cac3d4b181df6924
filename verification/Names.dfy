/** Changelog names under the default template "{source_topic}.p{partition}.changelog". */
module Names {
  import opened Types

  function Digit(n: nat): char
    requires n < 10
  {
    "0123456789"[n]
  }

  /** `str(n)`. */
  function Decimal(n: nat): string {
    if n < 10 then [Digit(n)] else Decimal(n / 10) + [Digit(n % 10)]
  }

  function ResolveDefault(tp: TP): string {
    tp.topic + ".p" + Decimal(tp.partition) + ".changelog"
  }

  predicate LegalChar(c: char) {
    'A' <= c <= 'Z' || 'a' <= c <= 'z' || '0' <= c <= '9' || c == '.' || c == '_' || c == '-'
  }

  predicate LegalTopicName(name: string) {
    name != "." && name != ".." && 0 < |name| <= 249 && forall i | 0 <= i < |name| :: LegalChar(name[i])
  }

  /** `changelog_name`: the formatted name, or ConfigError when it is not a legal topic name. */
  function ChangelogName(tp: TP): Result<string> {
    if LegalTopicName(ResolveDefault(tp)) then Ok(ResolveDefault(tp)) else Err(ConfigError)
  }

  /** The number that a run of digits denotes. */
  function Value(digits: string): int {
    if digits == [] then 0 else Value(DropLast(digits)) * 10 + (Last(digits) as int - '0' as int)
  }

  /** `str` of a number denotes it, without a leading zero. */
  lemma {:induction false} DecimalDenotes(n: nat)
    ensures Value(Decimal(n)) == n && Decimal(n) != [] && (n > 0 ==> Decimal(n)[0] != '0')
    ensures forall i | 0 <= i < |Decimal(n)| :: '0' <= Decimal(n)[i] <= '9'
  {
    DecimalIsDigits(n);
    if n < 10 {
      assert DropLast(Decimal(n)) == [];
    } else {
      DecimalDenotes(n / 10);
      assert DropLast(Decimal(n)) == Decimal(n / 10);
    }
  }

  /** The name is the topic, ".p", the partition's digits and ".changelog". */
  lemma NameParts(tp: TP)
    ensures var name, n := ResolveDefault(tp), |tp.topic|;
            && |name| > n + 12 && name[..n] == tp.topic && name[n..n + 2] == ".p"
            && Value(name[n + 2..|name| - 10]) == tp.partition && name[|name| - 10..] == ".changelog"
  {
    DecimalDenotes(tp.partition);
    var name, n := ResolveDefault(tp), |tp.topic|;
    assert name[n + 2..|name| - 10] == Decimal(tp.partition);
  }

  /** A letter, a digit, a dash, a dot or an underscore, by ASCII code. */
  predicate IsLegal(code: int) {
    0x41 <= code <= 0x5A || 0x61 <= code <= 0x7A || 0x30 <= code <= 0x39 || code in {0x2D, 0x2E, 0x5F}
  }

  /** The exact condition for a shard to have a changelog name: its topic holds only letters, digits, dots,
      underscores and dashes, and the name is not longer than 249 characters. */
  lemma NamedExactly(tp: TP)
    ensures ChangelogName(tp).Ok? <==>
              && (forall i | 0 <= i < |tp.topic| :: IsLegal(tp.topic[i] as int))
              && |tp.topic| + |Decimal(tp.partition)| + 12 <= 249
    ensures ChangelogName(tp).Ok? ==> ChangelogName(tp).value == ResolveDefault(tp)
    ensures ChangelogName(tp).Err? ==> ChangelogName(tp).error == ConfigError
  {
    var name, n := ResolveDefault(tp), |tp.topic|;
    var tail := ".p" + Decimal(tp.partition) + ".changelog";
    DecimalIsDigits(tp.partition);
    assert name == tp.topic + tail && |tail| == |Decimal(tp.partition)| + 12;
    forall i | 0 <= i < |tail| ensures LegalChar(tail[i]) {
    }
    assert forall c :: LegalChar(c) <==> IsLegal(c as int);
    assert forall i | 0 <= i < n :: name[i] == tp.topic[i];
    assert forall i | n <= i < |name| :: name[i] == tail[i - n];
  }

  lemma {:induction false} DecimalIsDigits(n: nat)
    ensures Decimal(n) != [] && forall i | 0 <= i < |Decimal(n)| :: '0' <= Decimal(n)[i] <= '9'
  {
    if n >= 10 {
      DecimalIsDigits(n / 10);
    }
  }

  lemma LastDigit(n: nat)
    ensures Decimal(n) != [] && Last(Decimal(n)) == Digit(n % 10)
    ensures DropLast(Decimal(n)) == if n < 10 then [] else Decimal(n / 10)
  {
  }

  lemma DigitInjective(m: nat, n: nat)
    requires m < 10 && n < 10 && Digit(m) == Digit(n)
    ensures m == n
  {
  }

  lemma {:induction false} DecimalInjective(m: nat, n: nat)
    requires Decimal(m) == Decimal(n)
    ensures m == n
  {
    hide Decimal, Digit;
    LastDigit(m);
    LastDigit(n);
    DigitInjective(m % 10, n % 10);
    DecimalIsDigits(m / 10);
    DecimalIsDigits(n / 10);
    if m >= 10 && n >= 10 {
      DecimalInjective(m / 10, n / 10);
    }
  }

  /** Two strings that agree when a run of digits after 'p' is appended to each agree in both parts. */
  lemma DigitRunUnique(s: string, d: string, t: string, e: string)
    requires s + "p" + d == t + "p" + e
    requires forall i | 0 <= i < |d| :: '0' <= d[i] <= '9'
    requires forall i | 0 <= i < |e| :: '0' <= e[i] <= '9'
    ensures s == t && d == e
  {
    var w := s + "p" + d;
    assert w[|s|] == 'p' && w[|t|] == 'p' by {
      assert (t + "p" + e)[|t|] == 'p';
    }
    assert w[..|s|] == s && (t + "p" + e)[..|t|] == t;
    assert w[|s| + 1..] == d && (t + "p" + e)[|t| + 1..] == e;
  }

  /** Distinct shards never share a changelog. */
  lemma DefaultNamesInjective(a: TP, b: TP)
    requires ResolveDefault(a) == ResolveDefault(b)
    ensures a == b
  {
    var s, t := a.topic + ".", b.topic + ".";
    var d, e := Decimal(a.partition), Decimal(b.partition);
    DecimalIsDigits(a.partition);
    DecimalIsDigits(b.partition);
    var n := |ResolveDefault(a)| - |".changelog"|;
    assert ResolveDefault(a) == s + "p" + d + ".changelog" && ResolveDefault(b) == t + "p" + e + ".changelog";
    assert ResolveDefault(a)[..n] == s + "p" + d && ResolveDefault(b)[..n] == t + "p" + e;
    DigitRunUnique(s, d, t, e);
    assert s[..|a.topic|] == a.topic && t[..|b.topic|] == b.topic;
    DecimalInjective(a.partition, b.partition);
  }
}
