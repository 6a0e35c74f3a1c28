/** `changeTypeToString` of tools/ado/src/helpers/client.ts: the name of an
    Azure DevOps `VersionControlChangeType` value.

    The enumeration is a set of bit flags; only the thirteen single flags
    below have a name, every other value (no flag, or several combined) is
    written as `unknown(n)`.
 */
module AdoClient {

  import opened Strings

  /** The lookup table `types`, keyed by the flag values of
      `VersionControlChangeType`. */
  const Types: map<int, string> := map[
    1 := "add", 2 := "edit", 4 := "encoding", 8 := "rename", 16 := "delete",
    32 := "undelete", 64 := "branch", 128 := "merge", 256 := "lock",
    512 := "rollback", 1024 := "sourceRename", 2048 := "targetRename",
    4096 := "property"]

  /** The text written for a value outside the table. */
  function Unknown(changeType: int): string {
    "unknown(" + IntToDecimal(changeType) + ")"
  }

  /** `types[changeType] ?? \`unknown(${changeType})\`` */
  function ChangeTypeToString(changeType: int): (r: string)
    ensures changeType in Types <==> '(' !in r
  {
    TableNamesPlain();
    UnknownHasParenthesis(changeType);
    if changeType in Types then Types[changeType] else Unknown(changeType)
  }

  /** Table names are distinct and carry no parenthesis. */
  lemma TableNames()
    ensures forall a, b :: a in Types && b in Types && Types[a] == Types[b] ==> a == b
    ensures forall a :: a in Types ==> '(' !in Types[a]
  {
    TableNamesDistinct();
    TableNamesPlain();
  }

  lemma TableNamesDistinct()
    ensures forall a, b :: a in Types && b in Types && Types[a] == Types[b] ==> a == b
  {
  }

  lemma TableNamesPlain()
    ensures forall a :: a in Types ==> '(' !in Types[a]
  {
  }

  /** Only powers of two up to 4096 are named: the table is checked entry
      by entry against the first thirteen powers of two. */
  lemma NamedArePowersOfTwo(changeType: int)
    requires changeType in Types
    ensures exists i :: 0 <= i <= 12 && changeType == Pow2(i)
  {
    assert Pow2(0) == 1 && Pow2(1) == 2 && Pow2(2) == 4 && Pow2(3) == 8;
    assert Pow2(4) == 16 && Pow2(5) == 32 && Pow2(6) == 64;
    assert Pow2(7) == 128 && Pow2(8) == 256 && Pow2(9) == 512;
    assert Pow2(10) == 1024 && Pow2(11) == 2048 && Pow2(12) == 4096;
  }

  function Pow2(i: nat): nat {
    if i == 0 then 1 else 2 * Pow2(i - 1)
  }

  /** A value that is no single flag, such as 0 or a combination of flags,
      is reported by its number. */
  lemma CombinedIsUnknown()
    ensures ChangeTypeToString(0) == "unknown(0)"
    ensures ChangeTypeToString(3) == "unknown(3)"
    ensures ChangeTypeToString(1 + 16) == "unknown(17)"
  {
    assert NatToDecimal(17) == "17";
  }

  /** No two values share a name. */
  lemma ChangeTypeToStringInjective(a: int, b: int)
    requires ChangeTypeToString(a) == ChangeTypeToString(b)
    ensures a == b
  {
    TableNames();
    if a in Types && b in Types {
    } else if a !in Types && b !in Types {
      UnknownInjective(a, b);
    } else {
      UnknownHasParenthesis(if a in Types then b else a);
    }
  }

  lemma UnknownHasParenthesis(n: int)
    ensures '(' in Unknown(n)
  {
    assert Unknown(n)[7] == '(';
  }

  lemma UnknownInjective(a: int, b: int)
    requires Unknown(a) == Unknown(b)
    ensures a == b
  {
    var p := "unknown(";
    var sa, sb := IntToDecimal(a), IntToDecimal(b);
    assert (p + sa + ")")[|p|..|p| + |sa|] == sa;
    assert (p + sb + ")")[|p|..|p| + |sb|] == sb;
    IntToDecimalInjective(a, b);
  }
}
