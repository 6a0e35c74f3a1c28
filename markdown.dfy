/** Inline code in the Markdown the prompts are written in: a tool or
    configuration name shown between backticks, and where a text shows it.
 */
module Markdown {

  import opened Strings

  /** `name` as inline code. */
  function Code(name: string): string {
    "`" + name + "`"
  }

  /** `text` shows `name` as inline code starting at index `k`. */
  predicate MentionsAt(text: string, name: string, k: int) {
    0 <= k && k + |name| + 2 <= |text| && text[k..k + |name| + 2] == Code(name)
  }

  /** `text` shows `name` as inline code somewhere. */
  predicate Mentions(text: string, name: string) {
    exists k :: 0 <= k < |text| && MentionsAt(text, name, k)
  }

  /** Code placed between two texts is shown right after the first. */
  lemma MentionsInside(a: string, name: string, b: string)
    ensures MentionsAt(a + Code(name) + b, name, |a|)
    ensures Mentions(a + Code(name) + b, name)
  {
    var t := a + Code(name) + b;
    assert t[|a|..|a| + |name| + 2] == Code(name);
    assert MentionsAt(t, name, |a|);
  }

  /** A mention survives text added around it, shifted by what comes
      before. */
  lemma MentionsExtend(t: string, name: string, k: int, a: string, b: string)
    requires MentionsAt(t, name, k)
    ensures MentionsAt(a + t + b, name, |a| + k)
    ensures Mentions(a + t + b, name)
  {
    var u := a + t + b;
    assert u[|a| + k..|a| + k + |name| + 2] == t[k..k + |name| + 2];
    assert MentionsAt(u, name, |a| + k);
  }

  lemma MentionsWithin(t: string, name: string, a: string, b: string)
    requires Mentions(t, name)
    ensures Mentions(a + t + b, name)
  {
    var k :| MentionsAt(t, name, k);
    MentionsExtend(t, name, k, a, b);
  }

  /** Each name as inline code. */
  function Codes(names: seq<string>): (r: seq<string>)
    ensures |r| == |names| && forall i :: 0 <= i < |names| ==> r[i] == Code(names[i])
  {
    if names == [] then [] else [Code(names[0])] + Codes(names[1..])
  }

  /** Every name of a list of inline codes joined by `sep` is shown. */
  lemma {:induction false} JoinMentions(names: seq<string>, sep: string, i: nat)
    requires i < |names|
    ensures Mentions(Join(Codes(names), sep), names[i])
  {
    var cs := Codes(names);
    if |names| == 1 {
      MentionsInside("", names[0], "");
      assert "" + Code(names[0]) + "" == Join(cs, sep);
    } else if i == 0 {
      MentionsInside("", names[0], sep + Join(cs[1..], sep));
      assert Join(cs, sep) == "" + Code(names[0]) + (sep + Join(cs[1..], sep));
    } else {
      assert Codes(names[1..]) == cs[1..];
      assert names[1..][i - 1] == names[i];
      JoinMentions(names[1..], sep, i - 1);
      MentionsWithin(Join(cs[1..], sep), names[i], cs[0] + sep, "");
      assert Join(cs, sep) == cs[0] + sep + Join(cs[1..], sep) + "";
    }
  }

  /** `parts.join(sep)` with a last part split off. */
  lemma {:induction false} JoinLast(parts: seq<string>, sep: string)
    requires |parts| >= 2
    ensures Join(parts, sep) == Join(parts[..|parts| - 1], sep) + sep + parts[|parts| - 1]
  {
    if |parts| > 2 {
      JoinLast(parts[1..], sep);
      assert parts[1..][..|parts| - 2] == parts[..|parts| - 1][1..];
    }
  }

  /** The parts of a text template written one after another. */
  function Concat(parts: seq<string>): string {
    if parts == [] then "" else parts[0] + Concat(parts[1..])
  }

  /** A template is what comes before part `i`, part `i`, then what comes
      after. */
  lemma {:induction false} ConcatSplit(parts: seq<string>, i: nat)
    requires i < |parts|
    ensures Concat(parts) == Concat(parts[..i]) + parts[i] + Concat(parts[i + 1..])
  {
    if i > 0 {
      ConcatSplit(parts[1..], i - 1);
      assert parts[1..][..i - 1] == parts[..i][1..];
      assert parts[1..][i - 1 + 1..] == parts[i + 1..];
    } else {
      assert parts[..0] == [];
      assert parts[1..] == parts[i + 1..];
    }
  }

  /** A name that any part shows is shown by the whole template. */
  lemma ConcatMentions(parts: seq<string>, i: nat, name: string)
    requires i < |parts| && Mentions(parts[i], name)
    ensures Mentions(Concat(parts), name)
  {
    ConcatSplit(parts, i);
    MentionsWithin(parts[i], name, Concat(parts[..i]), Concat(parts[i + 1..]));
  }

  /** A template starts with its first part. */
  lemma ConcatStart(parts: seq<string>)
    requires parts != []
    ensures StartsWith(Concat(parts), parts[0])
  {
    assert Concat(parts)[..|parts[0]|] == parts[0];
  }

  /** A name shown by one of the parts is shown by the parts joined. */
  lemma {:induction false} JoinMentionsPart(parts: seq<string>, sep: string, i: nat, name: string)
    requires i < |parts| && Mentions(parts[i], name)
    ensures Mentions(Join(parts, sep), name)
  {
    if |parts| == 1 {
      assert Join(parts, sep) == "" + parts[0] + "";
      MentionsWithin(parts[0], name, "", "");
    } else if i == 0 {
      MentionsWithin(parts[0], name, "", sep + Join(parts[1..], sep));
      assert Join(parts, sep) == "" + parts[0] + (sep + Join(parts[1..], sep));
    } else {
      assert parts[1..][i - 1] == parts[i];
      JoinMentionsPart(parts[1..], sep, i - 1, name);
      MentionsWithin(Join(parts[1..], sep), name, parts[0] + sep, "");
      assert Join(parts, sep) == parts[0] + sep + Join(parts[1..], sep) + "";
    }
  }

  /** Code shows its own name. */
  lemma MentionsCode(name: string)
    ensures Mentions(Code(name), name)
  {
    MentionsInside("", name, "");
    assert "" + Code(name) + "" == Code(name);
  }

  /** What a text starts with, it still starts with when more follows. */
  lemma StartsWithExtend(a: string, b: string, x: string)
    requires StartsWith(a, x)
    ensures StartsWith(a + b, x) && StartsWith(a + b, a)
  {
    assert (a + b)[..|a|] == a;
    assert (a + b)[..|x|] == a[..|x|];
  }

  /** What a text shows, it still shows when more follows. */
  lemma MentionsBefore(a: string, b: string, name: string)
    requires Mentions(a, name)
    ensures Mentions(a + b, name)
  {
    MentionsWithin(a, name, "", b);
    assert "" + a + b == a + b;
  }
}
