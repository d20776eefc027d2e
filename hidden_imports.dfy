/**
 * generate_hidden_imports.py: the package names of a requirements file, one
 * `--hidden-import` argument each. The lines are given as read from the
 * file, each with its line break when it has one.
 */
module HiddenImports {
  import opened Text

  /** A line is used when it is not blank and its raw text does not start with '#'. */
  predicate Kept(line: string) {
    Strip(line) != "" && !(line != [] && line[0] == '#')
  }

  /**
   * `line.strip().split('==')[0].split('>=')[0].split('<=')[0]`: the stripped
   * line up to its first "==", then up to the first ">=", then up to the first "<=".
   */
  function PackageName(line: string): (name: string)
    ensures name <= Strip(line)
    ensures !Contains(name, "==") && !Contains(name, ">=") && !Contains(name, "<=")
  {
    var a := Before(Strip(line), "==");
    var b := Before(a, ">=");
    var c := Before(b, "<=");
    AbsentInPrefix(c, a, "==");
    AbsentInPrefix(c, b, ">=");
    c
  }

  /** The name is the whole stripped line, or one of the three operators follows it there. */
  lemma NameEndsAtOperator(line: string)
    ensures var s := Strip(line);
            var name := PackageName(line);
            name == s || "==" <= s[|name|..] || ">=" <= s[|name|..] || "<=" <= s[|name|..]
  {
    var a := Before(Strip(line), "==");
    var b := Before(a, ">=");
    OccurrenceInPrefix(b, Strip(line), |PackageName(line)|, "<=");
    OccurrenceInPrefix(a, Strip(line), |b|, ">=");
  }

  /** The package names of the kept lines. */
  function Packages(lines: seq<string>): (names: seq<string>)
    ensures |names| <= |lines|
    decreases |lines|
  {
    if lines == [] then []
    else (if Kept(lines[0]) then [PackageName(lines[0])] else []) + Packages(lines[1..])
  }

  /** Every name is the name of a kept line. */
  lemma {:induction false} PackagesFromKeptLines(lines: seq<string>)
    ensures forall n :: n in Packages(lines) ==> exists l :: l in lines && Kept(l) && n == PackageName(l)
    decreases |lines|
  {
    if lines != [] {
      PackagesFromKeptLines(lines[1..]);
      assert forall l :: l in lines[1..] ==> l in lines;
    }
  }

  /** Names come out in the order of their lines: the names of a split file are the names of its parts, joined. */
  lemma {:induction false} PackagesAppend(a: seq<string>, b: seq<string>)
    ensures Packages(a + b) == Packages(a) + Packages(b)
    decreases |a|
  {
    if a != [] {
      var head := if Kept(a[0]) then [PackageName(a[0])] else [];
      assert (a + b)[0] == a[0] && (a + b)[1..] == a[1..] + b;
      PackagesAppend(a[1..], b);
      assert Packages(a + b) == head + Packages(a[1..] + b);
      assert Packages(a) == head + Packages(a[1..]);
      assert head + (Packages(a[1..]) + Packages(b)) == (head + Packages(a[1..])) + Packages(b);
    } else {
      assert a + b == b;
    }
  }

  /** A single line gives its name when it is kept and nothing otherwise: with `PackagesAppend`, one name per kept line (generate_hidden_imports.py:5). */
  lemma PackagesOfLine(line: string)
    ensures Packages([line]) == if Kept(line) then [PackageName(line)] else []
  {
    assert [line][1..] == [];
  }

  /** The arguments the script prints: "--hidden-import " and each name, in order (generate_hidden_imports.py:7-8). */
  function HiddenImportArgs(lines: seq<string>): (args: seq<string>)
    ensures |args| == |Packages(lines)|
    ensures forall i :: 0 <= i < |args| ==> args[i] == "--hidden-import " + Packages(lines)[i]
  {
    var names := Packages(lines);
    seq(|names|, i requires 0 <= i < |names| => "--hidden-import " + names[i])
  }

  /** No character of `s` starts any of the three version operators. */
  predicate NoOperatorChar(s: string) {
    forall i :: 0 <= i < |s| ==> s[i] != '=' && s[i] != '>' && s[i] != '<'
  }

  /** A stripped line without any operator is its own name. */
  lemma NameOfBareLine(line: string)
    requires NoOperatorChar(Strip(line))
    ensures PackageName(line) == Strip(line)
  {
    AbsentFirstChar(Strip(line), "==");
    AbsentFirstChar(Strip(line), ">=");
    AbsentFirstChar(Strip(line), "<=");
  }

  /** The name is everything before the first "==", spaces included: it is not stripped again (generate_hidden_imports.py:5). */
  lemma NameBeforePin(line: string, name: string, rest: string)
    requires Strip(line) == name + "==" + rest && NoOperatorChar(name)
    ensures PackageName(line) == name
  {
    var s := Strip(line);
    assert s[..|name|] == name && "==" <= s[|name|..];
    BeforeAt(s, "==", |name|);
    AbsentFirstChar(name, ">=");
    AbsentFirstChar(name, "<=");
  }

  /**
   * In `name` followed by a bound operator and a text not starting with '=',
   * no "==" starts before the operator's end, so the cut at "==" keeps both.
   */
  lemma PinCutKeeps(t: string, name: string, op: string, rest: string)
    requires op == ">=" || op == "<="
    requires t == name + op + rest && NoOperatorChar(name) && (rest == [] || rest[0] != '=')
    ensures |name| + 2 <= |Before(t, "==")| && Before(t, "==")[..|name| + 2] == name + op
  {
    forall j | 0 <= j < |name| + 2
      ensures !("==" <= t[j..])
    {
      if j < |name| {
        assert t[j] == name[j];
      } else if j == |name| {
        assert t[j] == op[0];
      } else {
        assert t[j] == '=';
        assert j + 1 == |t| || t[j + 1] == rest[0];
      }
    }
    assert t[..|name| + 2] == name + op;
    BeforeKeeps(t, "==", |name| + 2);
  }

  /** A text that starts with `name` and then `op`, `name` holding no operator character, is cut to `name`. */
  lemma CutAt(t: string, name: string, op: string)
    requires op == ">=" || op == "<="
    requires |name| + 2 <= |t| && t[..|name| + 2] == name + op && NoOperatorChar(name)
    ensures Before(t, op) == name
  {
    assert op <= t[|name|..] by {
      assert t[|name|..][..2] == t[..|name| + 2][|name|..];
    }
    assert t[..|name|] == name by {
      assert t[..|name|] == t[..|name| + 2][..|name|];
    }
    BeforeAt(t, op, |name|);
  }

  /** After the cut at "==", a text starting with `name` and ">=" is cut to `name`. */
  lemma GreaterCut(a: string, name: string)
    requires |name| + 2 <= |a| && a[..|name| + 2] == name + ">=" && NoOperatorChar(name)
    ensures Before(Before(a, ">="), "<=") == name
  {
    CutAt(a, name, ">=");
    AbsentFirstChar(name, "<=");
  }

  /** A text starting with `name` and "<=" has no ">=" starting before the bound's end. */
  lemma NoGreaterBefore(a: string, name: string)
    requires |name| + 2 <= |a| && a[..|name| + 2] == name + "<=" && NoOperatorChar(name)
    ensures forall j :: 0 <= j < |name| + 2 ==> !(">=" <= a[j..])
  {
    forall j | 0 <= j < |name| + 2
      ensures !(">=" <= a[j..])
    {
      assert a[j] == (name + "<=")[j];
    }
  }

  /** After the cut at "==", a text starting with `name` and "<=" is cut to `name`. */
  lemma LessCut(a: string, name: string)
    requires |name| + 2 <= |a| && a[..|name| + 2] == name + "<=" && NoOperatorChar(name)
    ensures Before(Before(a, ">="), "<=") == name
  {
    NoGreaterBefore(a, name);
    BeforeKeeps(a, ">=", |name| + 2);
    CutAt(Before(a, ">="), name, "<=");
  }

  /**
   * A bound such as "requests>=2.0" or "idna<=3.4" gives the name before the
   * operator; the cut at "==" comes first, so the bound must not be followed
   * by another '=' (generate_hidden_imports.py:5).
   */
  lemma NameBeforeBound(line: string, name: string, op: string, rest: string)
    requires op == ">=" || op == "<="
    requires Strip(line) == name + op + rest && NoOperatorChar(name)
    requires rest == [] || rest[0] != '='
    ensures PackageName(line) == name
  {
    PinCutKeeps(Strip(line), name, op, rest);
    if op == ">=" {
      GreaterCut(Before(Strip(line), "=="), name);
    } else {
      LessCut(Before(Strip(line), "=="), name);
    }
  }


  /**
   * An indented comment line is kept, and its "name" is the comment text:
   * the test for '#' looks at the raw line, before stripping
   * (generate_hidden_imports.py:5).
   */
  lemma IndentedCommentKept(pad: string, comment: string)
    requires pad != [] && forall i :: 0 <= i < |pad| ==> IsSpace(pad[i])
    requires comment != [] && comment[0] == '#' && !IsSpace(comment[|comment| - 1])
    requires NoOperatorChar(comment)
    ensures Kept(pad + comment + "\n") && PackageName(pad + comment + "\n") == comment
  {
    var line := pad + comment + "\n";
    StripPadded(pad, comment, "\n");
    assert line[0] == pad[0];
    NameOfBareLine(line);
  }

  /** A pin written with spaces, such as "pkg == 1.0", gives the name with its trailing space ("pkg "). */
  lemma SpacedPinKeepsSpace(name: string, version: string)
    requires name != [] && !IsSpace(name[0]) && name[0] != '#' && name[|name| - 1] == ' '
    requires NoOperatorChar(name)
    requires version != [] && !IsSpace(version[|version| - 1])
    ensures Kept(name + "==" + version + "\n") && PackageName(name + "==" + version + "\n") == name
  {
    var body := name + "==" + version;
    var line := body + "\n";
    assert body[0] == name[0] && body[|body| - 1] == version[|version| - 1];
    assert line == [] + body + "\n";
    StripPadded([], body, "\n");
    assert line[0] == name[0];
    NameBeforePin(line, name, version);
  }
}
