/**
 * Command primitives of the ZPL II language: a command is the caret, a
 * mnemonic and a comma-separated parameter list; a structural command also
 * stands alone on its line. `ParseCommand` reads such text back and is the
 * partner the round-trip lemmas are stated against.
 */
module ZplUtils {
  import opened Wrappers

  const Caret: char := '^'
  const Separator: char := ','
  const LineBreak: char := '\n'

  predicate StartsWith(s: string, prefix: string)
  {
    |prefix| <= |s| && s[..|prefix|] == prefix
  }

  /** Position of the first occurrence of `c` in `s`. */
  function IndexOf(s: string, c: char): (r: Option<nat>)
    ensures r.None? ==> c !in s
    ensures r.Some? ==> r.value < |s| && s[r.value] == c && c !in s[..r.value]
  {
    if s == [] then None
    else if s[0] == c then Some(0)
    else match IndexOf(s[1..], c)
      case None => None
      case Some(k) => assert s[..k + 1] == [s[0]] + s[1..][..k]; Some(k + 1)
  }

  /** Parameters joined by the separator, as the command helpers lay them out. */
  function Join(params: seq<string>): string
  {
    if |params| == 0 then ""
    else if |params| == 1 then params[0]
    else params[0] + [Separator] + Join(params[1..])
  }

  /** The pieces of `s` between separators; `Split` of a text without one is that text alone. */
  function Split(s: string): (r: seq<string>)
    ensures |r| >= 1
    decreases |s|
  {
    match IndexOf(s, Separator)
    case None => [s]
    case Some(k) => [s[..k]] + Split(s[k + 1..])
  }

  /** `zplCommand(mnemonic, params...)`: the caret, the mnemonic, then the joined parameters. */
  function ZplCommand(mnemonic: string, params: seq<string>): string
  {
    [Caret] + mnemonic + Join(params)
  }

  /** `zplCommandSautLigne(mnemonic, params...)`: a command on a line of its own. */
  function ZplCommandLine(mnemonic: string, params: seq<string>): string
  {
    ZplCommand(mnemonic, params) + [LineBreak]
  }

  /** Reads a command with a two-letter mnemonic back into its mnemonic and parameters. */
  function ParseCommand(s: string): Option<(string, seq<string>)>
  {
    if |s| >= 3 && s[0] == Caret then
      Some((s[1..3], if |s| == 3 then [] else Split(s[3..])))
    else None
  }

  /** Reads a command line back: the command, then the line break that ends it. */
  function ParseCommandLine(s: string): Option<(string, seq<string>)>
  {
    if |s| >= 1 && s[|s| - 1] == LineBreak then ParseCommand(s[..|s| - 1]) else None
  }

  /** A parameter the command syntax can carry unambiguously. */
  predicate PlainParam(p: string)
  {
    p != [] && Separator !in p
  }

  /** The first `c` in `a + [c] + b` is the one after `a`, when `a` holds none. */
  lemma IndexOfAfterPrefix(a: string, c: char, b: string)
    requires c !in a
    ensures IndexOf(a + [c] + b, c) == Some(|a|)
  {
    var s := a + [c] + b;
    assert s[|a|] == c && s[..|a|] == a;
  }

  /** Splitting undoes joining, for parameters free of the separator. */
  lemma {:induction false} SplitJoin(params: seq<string>)
    requires |params| >= 1
    requires forall i :: 0 <= i < |params| ==> Separator !in params[i]
    ensures Split(Join(params)) == params
  {
    if |params| > 1 {
      var rest := Join(params[1..]);
      IndexOfAfterPrefix(params[0], Separator, rest);
      var s := params[0] + [Separator] + rest;
      assert s[..|params[0]|] == params[0];
      assert s[|params[0]| + 1..] == rest;
      SplitJoin(params[1..]);
      assert params == [params[0]] + params[1..];
    } else {
      assert Join(params) == params[0];
    }
  }

  /** A command built by `ZplCommand` is read back exactly by `ParseCommand`. */
  lemma CommandRoundTrip(mnemonic: string, params: seq<string>)
    requires |mnemonic| == 2
    requires forall i :: 0 <= i < |params| ==> PlainParam(params[i])
    ensures ParseCommand(ZplCommand(mnemonic, params)) == Some((mnemonic, params))
  {
    var s := ZplCommand(mnemonic, params);
    assert s[1..3] == mnemonic;
    if params == [] {
      assert |s| == 3;
    } else {
      assert s[3..] == Join(params);
      JoinNonEmpty(params);
      SplitJoin(params);
    }
  }

  /** A command line built by `ZplCommandLine` is read back exactly by `ParseCommandLine`. */
  lemma CommandLineRoundTrip(mnemonic: string, params: seq<string>)
    requires |mnemonic| == 2
    requires forall i :: 0 <= i < |params| ==> PlainParam(params[i])
    ensures ParseCommandLine(ZplCommandLine(mnemonic, params)) == Some((mnemonic, params))
  {
    var s := ZplCommandLine(mnemonic, params);
    assert s[..|s| - 1] == ZplCommand(mnemonic, params);
    CommandRoundTrip(mnemonic, params);
  }

  /** Three parameters are laid out with a separator between each two. */
  lemma JoinThree(a: string, b: string, c: string)
    ensures Join([a, b, c]) == a + [Separator] + b + [Separator] + c
  {
    assert [a, b, c][1..] == [b, c] && [b, c][1..] == [c];
    assert Join([c]) == c;
    assert Join([b, c]) == b + [Separator] + c;
    assert Join([a, b, c]) == a + [Separator] + (b + [Separator] + c);
  }

  lemma {:induction false} JoinNonEmpty(params: seq<string>)
    requires |params| >= 1 && params[0] != []
    ensures |Join(params)| >= 1
  {
  }

  /** A command starts with the caret and its mnemonic, whatever its parameters. */
  lemma CommandPrefix(mnemonic: string, params: seq<string>)
    ensures StartsWith(ZplCommand(mnemonic, params), [Caret] + mnemonic)
    ensures StartsWith(ZplCommandLine(mnemonic, params), [Caret] + mnemonic)
  {
    var p := [Caret] + mnemonic;
    assert ZplCommand(mnemonic, params)[..|p|] == p;
    assert ZplCommandLine(mnemonic, params)[..|p|] == p;
  }

  /** The first three characters of a text: the caret and mnemonic of the command it begins with. */
  function CommandHead(s: string): (h: string)
    ensures |h| <= 3
  {
    if |s| >= 3 then s[..3] else s
  }

  /** The command a concatenation begins with is that of its first part, unless the first part is empty. */
  lemma CommandHeadAppend(a: string, b: string)
    ensures |a| >= 3 ==> CommandHead(a + b) == CommandHead(a)
    ensures a == [] ==> CommandHead(a + b) == CommandHead(b)
  {
    if |a| >= 3 {
      assert (a + b)[..3] == a[..3];
    } else if a == [] {
      assert a + b == b;
    }
  }

  /** A command built with a two-letter mnemonic begins with the caret and that mnemonic. */
  lemma CommandLineHead(mnemonic: string, params: seq<string>)
    requires |mnemonic| == 2
    ensures |ZplCommandLine(mnemonic, params)| >= 3
    ensures CommandHead(ZplCommandLine(mnemonic, params)) == [Caret] + mnemonic
  {
    var s := ZplCommandLine(mnemonic, params);
    assert s == [Caret] + mnemonic + (Join(params) + [LineBreak]);
    assert s[..3] == [Caret] + mnemonic;
  }

  /** The texts of the parts, one after the other. */
  function Concat(parts: seq<string>): string
  {
    if parts == [] then "" else parts[0] + Concat(parts[1..])
  }

  /** Concatenating two lists of parts is concatenating their texts. */
  lemma {:induction false} ConcatAppend(a: seq<string>, b: seq<string>)
    ensures Concat(a + b) == Concat(a) + Concat(b)
  {
    if a == [] {
      assert a + b == b;
    } else {
      assert (a + b)[1..] == a[1..] + b;
      ConcatAppend(a[1..], b);
    }
  }

  /** Part `i` sits between the parts before it and the parts after it. */
  lemma {:induction false} ConcatAt(parts: seq<string>, i: nat)
    requires i < |parts|
    ensures Concat(parts) == Concat(parts[..i]) + parts[i] + Concat(parts[i + 1..])
  {
    var before, after := parts[..i], parts[i + 1..];
    var tail := [parts[i]] + after;
    assert parts == before + tail;
    ConcatAppend(before, tail);
    assert tail[1..] == after;
    assert Concat(tail) == parts[i] + Concat(after);
  }

  lemma AppendEmpty(a: string)
    ensures a + "" == a
  {
  }

  lemma AppendAssoc(a: string, b: string, c: string)
    ensures (a + b) + c == a + (b + c)
  {
  }

  /** The first part of a concatenation is a prefix of it, and dropping it leaves the second part. */
  lemma AppendParts(a: string, b: string)
    ensures (a + b)[..|a|] == a && (a + b)[|a|..] == b
  {
  }

  /** A slice of a concatenation that lies within one of its parts. */
  lemma SliceAppend(a: string, b: string, i: nat, j: nat)
    ensures j <= |a| && i <= j ==> (a + b)[i..j] == a[i..j]
    ensures i <= j <= |b| ==> (a + b)[|a| + i..|a| + j] == b[i..j]
  {
  }

  /** Dropping a prefix no longer than the first part. */
  lemma DropAppend(a: string, b: string, n: nat)
    requires n <= |a|
    ensures (a + b)[n..] == a[n..] + b
  {
  }

  /** Prefixes carry over to any extension of the text. */
  lemma StartsWithAppend(s: string, t: string, prefix: string)
    requires StartsWith(s, prefix)
    ensures StartsWith(s + t, prefix)
  {
    assert (s + t)[..|prefix|] == s[..|prefix|];
  }
}
