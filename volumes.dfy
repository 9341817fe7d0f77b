/** Shared vocabulary of the audio subsystem: optional values, volume clamping,
    the engine's approximate float comparison and the category identifiers. */
module Volumes {

  datatype Option<+T> = None | Some(value: T)

  /** A volume the engine accepts: a real in [0, 1]. */
  predicate InUnit(x: real) {
    0.0 <= x <= 1.0
  }

  /** Mathf.Clamp01. */
  function Clamp01(x: real): (r: real)
    ensures InUnit(r)
    ensures InUnit(x) ==> r == x
    ensures x <= 0.0 ==> r == 0.0
    ensures x >= 1.0 ==> r == 1.0
  {
    if x < 0.0 then 0.0 else if x > 1.0 then 1.0 else x
  }

  function Abs(x: real): real {
    if x < 0.0 then -x else x
  }

  function Max(a: real, b: real): real {
    if a < b then b else a
  }

  /** Relative tolerance of Mathf.Approximately. */
  const RelativeTolerance: real := 0.000001

  /** Absolute floor of Mathf.Approximately: eight times the smallest positive float. */
  const AbsoluteTolerance: real := 0.000000000000000000000000000000000000000000011210384

  /** Mathf.Approximately, read on reals instead of single-precision floats: values closer
      than the absolute floor always compare equal, and two volumes that compare equal differ
      by less than the relative tolerance. */
  function Approx(a: real, b: real): (r: bool)
    ensures Abs(b - a) < AbsoluteTolerance ==> r
    ensures r && InUnit(a) && InUnit(b) ==> Abs(b - a) < RelativeTolerance
  {
    Abs(b - a) < Max(RelativeTolerance * Max(Abs(a), Abs(b)), AbsoluteTolerance)
  }

  lemma ApproxReflexive(a: real)
    ensures Approx(a, a)
  {
  }

  lemma ApproxSymmetric(a: real, b: real)
    ensures Approx(a, b) <==> Approx(b, a)
  {
  }

  /** AudioCategory: an enumeration used as an array index, so an ordinal. */
  type Category = nat

  /** The enumeration values named by the manager's volume properties, in declaration order. */
  const Global: Category := 0
  const Fx: Category := 1
  const Speech: Category := 2
  const Music: Category := 3

  /** Decimal text of a natural number, as Enum.ToString prints a value without a name. */
  function NatText(n: nat): (s: string)
    ensures |s| >= 1
    ensures forall i :: 0 <= i < |s| ==> '0' <= s[i] <= '9'
  {
    var digit := ['0' + (n % 10) as char];
    if n < 10 then digit else NatText(n / 10) + digit
  }

  /** category.ToString(): a named value prints as its capitalised name, any other ordinal as
      its decimal digits. */
  function CategoryText(c: Category): (s: string)
    ensures |s| >= 1
    ensures c <= Music ==> 'A' <= s[0] <= 'Z'
    ensures c > Music ==> forall i :: 0 <= i < |s| ==> '0' <= s[i] <= '9'
  {
    if c == Global then "Global"
    else if c == Fx then "Fx"
    else if c == Speech then "Speech"
    else if c == Music then "Music"
    else NatText(c)
  }

  function LowerChar(ch: char): char {
    if 'A' <= ch <= 'Z' then ch - 'A' + 'a' else ch
  }

  /** string.ToLowerInvariant restricted to ASCII letters (category names are ASCII). */
  function AsciiLower(s: string): (r: string)
    ensures |r| == |s|
    ensures forall i :: 0 <= i < |s| ==> r[i] == LowerChar(s[i])
    ensures forall i :: 0 <= i < |r| ==> !('A' <= r[i] <= 'Z')
  {
    if s == [] then [] else [LowerChar(s[0])] + AsciiLower(s[1..])
  }

  /** The PlayerPrefs key under which a category's volume is saved. */
  function PrefsKey(c: Category): (k: string)
    ensures |k| > |"Volume_"| && k[..|"Volume_"|] == "Volume_"
  {
    "Volume_" + CategoryText(c)
  }

  /** Distinct categories are saved under distinct keys. */
  lemma PrefsKeyInjective(a: Category, b: Category)
    requires a != b
    ensures PrefsKey(a) != PrefsKey(b)
  {
    var ka, kb := PrefsKey(a), PrefsKey(b);
    if ka == kb {
      assert CategoryText(a) == ka[7..] == kb[7..] == CategoryText(b);
      CategoryTextInjective(a, b);
    }
  }

  lemma CategoryTextInjective(a: Category, b: Category)
    requires a != b
    ensures CategoryText(a) != CategoryText(b)
  {
    if a > Music && b > Music {
      NatTextInjective(a, b);
    } else if a > Music {
      assert '0' <= CategoryText(a)[0] <= '9';
    } else if b > Music {
      assert '0' <= CategoryText(b)[0] <= '9';
    }
  }

  lemma {:induction false} NatTextInjective(a: nat, b: nat)
    requires a != b
    ensures NatText(a) != NatText(b)
  {
    if a >= 10 && b >= 10 && a / 10 != b / 10 {
      NatTextInjective(a / 10, b / 10);
      var sa, sb := NatText(a), NatText(b);
      assert sa[..|sa| - 1] == NatText(a / 10);
      assert sb[..|sb| - 1] == NatText(b / 10);
    } else if a < 10 && b >= 10 {
      assert |NatText(b)| == |NatText(b / 10)| + 1;
    } else if b < 10 && a >= 10 {
      assert |NatText(a)| == |NatText(a / 10)| + 1;
    } else {
      var sa, sb := NatText(a), NatText(b);
      assert a % 10 != b % 10;
      assert sa[|sa| - 1] == '0' + (a % 10) as char;
      assert sb[|sb| - 1] == '0' + (b % 10) as char;
    }
  }
}
