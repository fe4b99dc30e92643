/** Byte-string helpers the manager takes from Go's standard library. A Go string is a
    sequence of bytes, so a `char` stands for one byte here. */
module Text {
  datatype Option<+T> = None | Some(value: T)

  /** ASCII white space; the multi-byte spaces of Unicode are not part of this model. */
  predicate IsSpace(c: char) {
    c == ' ' || c == '\t' || c == '\n' || c == '\r' || c == 11 as char || c == 12 as char
  }

  function TrimLeft(s: string): string {
    if s != "" && IsSpace(s[0]) then TrimLeft(s[1..]) else s
  }

  function TrimRight(s: string): string {
    if s != "" && IsSpace(s[|s| - 1]) then TrimRight(s[..|s| - 1]) else s
  }

  function TrimSpace(s: string): string {
    TrimRight(TrimLeft(s))
  }

  predicate AllSpace(s: string) {
    forall i | 0 <= i < |s| :: IsSpace(s[i])
  }

  lemma {:induction false} TrimLeftDropsSpace(s: string) returns (dropped: string)
    ensures s == dropped + TrimLeft(s) && AllSpace(dropped)
    ensures TrimLeft(s) != "" ==> !IsSpace(TrimLeft(s)[0])
  {
    dropped := "";
    if s != "" && IsSpace(s[0]) {
      var more := TrimLeftDropsSpace(s[1..]);
      dropped := [s[0]] + more;
      assert s == [s[0]] + s[1..];
    }
  }

  lemma {:induction false} TrimRightDropsSpace(s: string) returns (dropped: string)
    ensures s == TrimRight(s) + dropped && AllSpace(dropped)
    ensures TrimRight(s) != "" ==> !IsSpace(TrimRight(s)[|TrimRight(s)| - 1])
  {
    dropped := "";
    if s != "" && IsSpace(s[|s| - 1]) {
      var more := TrimRightDropsSpace(s[..|s| - 1]);
      dropped := more + [s[|s| - 1]];
      assert s == s[..|s| - 1] + [s[|s| - 1]];
    }
  }

  /** TrimSpace drops the white space at both ends, all of it and nothing else. */
  lemma TrimSpaceDropsSpace(s: string) returns (left: string, right: string)
    ensures s == left + TrimSpace(s) + right && AllSpace(left) && AllSpace(right)
    ensures TrimSpace(s) != "" ==> !IsSpace(TrimSpace(s)[0]) && !IsSpace(TrimSpace(s)[|TrimSpace(s)| - 1])
  {
    left := TrimLeftDropsSpace(s);
    right := TrimRightDropsSpace(TrimLeft(s));
    assert TrimLeft(s) == TrimSpace(s) + right;
    assert s == left + (TrimSpace(s) + right) == left + TrimSpace(s) + right;
    if TrimSpace(s) != "" { assert TrimSpace(s)[0] == TrimLeft(s)[0]; }
  }

  predicate NameByte(c: char) {
    'a' <= c <= 'z' || '0' <= c <= '9' || c == '-'
  }

  /** What validateAgentName accepts: the trimmed name, or nothing. */
  function CanonicalName(raw: string): Option<string> {
    var name := TrimSpace(raw);
    if name == "" || |name| > 63 then None
    else if exists i | 0 <= i < |name| :: !NameByte(name[i]) then None
    else if name[0] == '-' || name[|name| - 1] == '-' then None
    else Some(name)
  }

  /** The names accepted as they are: 1 to 63 letters, digits and hyphens, none of them a hyphen
      at either end. Whatever else is accepted stands for one of them. */
  lemma CanonicalNames(raw: string)
    ensures CanonicalName(raw) == Some(raw) <==>
      && 1 <= |raw| <= 63 && (forall i | 0 <= i < |raw| :: NameByte(raw[i]))
      && raw[0] != '-' && raw[|raw| - 1] != '-'
    ensures CanonicalName(raw).Some? ==>
      CanonicalName(raw).value == TrimSpace(raw) && CanonicalName(TrimSpace(raw)) == Some(TrimSpace(raw))
  {
    if raw != "" && NameByte(raw[0]) && NameByte(raw[|raw| - 1]) { NothingToTrim(raw); }
    var left, right := TrimSpaceDropsSpace(raw);
    NothingToTrim(TrimSpace(raw));
  }

  lemma NothingToTrim(s: string)
    requires s != "" ==> !IsSpace(s[0]) && !IsSpace(s[|s| - 1])
    ensures TrimSpace(s) == s
  {
    assert TrimLeft(s) == s;
  }

  const MAX_INT: int := 0x7FFF_FFFF_FFFF_FFFF

  /** Nanoseconds in a second. */
  const SECOND: int := 1_000_000_000

  /** A missing key reads as the empty string, as in a Go map. */
  function At(m: map<string, string>, k: string): string {
    if k in m then m[k] else ""
  }

  /** strconv.Itoa on a number that is not negative. */
  function Itoa(n: nat): (s: string)
    ensures s != "" && forall i | 0 <= i < |s| :: '0' <= s[i] <= '9'
  {
    if n < 10 then [('0' as int + n) as char] else Itoa(n / 10) + [('0' as int + n % 10) as char]
  }

  /** The value of a run of decimal digits. */
  function Digits(s: string): Option<nat> {
    if s == "" then Some(0)
    else if !('0' <= s[|s| - 1] <= '9') then None
    else match Digits(s[..|s| - 1])
      case None => None
      case Some(high) => Some(10 * high + (s[|s| - 1] as int - '0' as int))
  }

  /** strconv.Atoi: an optional sign, at least one digit, and the range of a 64-bit int. */
  function Atoi(s: string): Option<int> {
    var signed := s != "" && (s[0] == '+' || s[0] == '-');
    var body := if signed then s[1..] else s;
    if body == "" then None
    else match Digits(body)
      case None => None
      case Some(n) =>
        var value: int := if signed && s[0] == '-' then 0 - n as int else n as int;
        if -MAX_INT - 1 <= value <= MAX_INT then Some(value) else None
  }

  lemma {:induction false} DigitsOfItoa(n: nat)
    ensures Digits(Itoa(n)) == Some(n)
  {
    if n >= 10 {
      DigitsOfItoa(n / 10);
      assert Itoa(n)[..|Itoa(n)| - 1] == Itoa(n / 10);
    } else {
      assert Itoa(n)[..0] == "";
    }
  }

  /** Decimal text reads back as the number, for every 64-bit int that is not negative. */
  lemma AtoiOfItoa(n: nat)
    requires n <= MAX_INT
    ensures Atoi(Itoa(n)) == Some(n)
  {
    DigitsOfItoa(n);
  }
}
