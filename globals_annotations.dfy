/**
 * The `GlobalsAnnotations` test helper: `@env NAME=value` and
 * `@server NAME=value` annotations on a test class and a test method are
 * merged, parsed into name/value tables and written into `$_ENV` and
 * `$_SERVER` before the test runs.
 *
 * The annotations PHPUnit reports are an input: a table from annotation
 * name to the list of annotation texts, one for the class and one for the
 * method.
 */
module GlobalsAnnotations {
  import opened Wrappers
  import opened PhpArrays
  import opened PhpUnitTestKernel

  /** A list of annotation texts as PHPUnit reports it: integer keys, string values. */
  predicate IsAnnotationList(v: Value) {
    v.Arr? && forall n :: 0 <= n < |v.entries| ==>
      v.entries[n].key.IntKey? && v.entries[n].val.Leaf? && v.entries[n].val.scalar.Str?
  }

  /** Annotation name to annotation texts, as PHPUnit's `getAnnotations()` reports one level. */
  predicate IsAnnotationTable(a: PhpArray) {
    UniqueKeys(a) && forall n :: 0 <= n < |a| ==> a[n].key.StrKey? && IsAnnotationList(a[n].val)
  }

  /** A table from names to string values, as the parser builds it. */
  predicate IsStringTable(t: PhpArray) {
    UniqueKeys(t) && forall n :: 0 <= n < |t| ==> t[n].key.StrKey? && t[n].val.Leaf? && t[n].val.scalar.Str?
  }

  /** The string values among `vs`, in order; for a list of annotation texts, all of them. */
  function StringValues(vs: seq<Value>): (r: seq<string>)
    ensures |r| <= |vs|
    ensures (forall n :: 0 <= n < |vs| ==> vs[n].Leaf? && vs[n].scalar.Str?) ==>
      |r| == |vs| && forall n :: 0 <= n < |vs| ==> r[n] == vs[n].scalar.s
  {
    if vs == [] then []
    else
      var rest := StringValues(vs[1..]);
      assert forall n :: 1 <= n < |vs| ==> vs[1..][n - 1] == vs[n];
      if vs[0].Leaf? && vs[0].scalar.Str? then [vs[0].scalar.s] + rest else rest
  }

  lemma {:induction false} StringValuesConcat(xs: seq<Value>, ys: seq<Value>)
    ensures StringValues(xs + ys) == StringValues(xs) + StringValues(ys)
  {
    if xs == [] {
      assert xs + ys == ys;
    } else {
      assert (xs + ys)[0] == xs[0];
      assert (xs + ys)[1..] == xs[1..] + ys;
      StringValuesConcat(xs[1..], ys);
    }
  }

  /** The annotation texts held by one value of an annotation table. */
  function Annotations(v: Value): seq<string> {
    if v.Arr? then StringValues(Values(v.entries)) else []
  }

  /** The texts of the annotations named `name` in a table, none when it has no such annotation. */
  function GroupLines(a: PhpArray, name: string): seq<string> {
    match Lookup(a, StrKey(name))
    case None => []
    case Some(v) => Annotations(v)
  }

  /** The two annotation names the helper reads. */
  predicate IsGlobalGroup(k: Key) {
    k == StrKey("env") || k == StrKey("server")
  }

  /** `array_filter(..., ARRAY_FILTER_USE_KEY)` keeping the `env` and `server` groups, in order. */
  function FilterGroups(a: PhpArray): (r: PhpArray)
    ensures forall k :: Lookup(r, k) == if IsGlobalGroup(k) then Lookup(a, k) else None
  {
    if a == [] then []
    else
      var rest := FilterGroups(a[1..]);
      var r := (if IsGlobalGroup(a[0].key) then [a[0]] else []) + rest;
      assert IsGlobalGroup(a[0].key) ==> r[0] == a[0] && r[1..] == rest;
      assert !IsGlobalGroup(a[0].key) ==> r == rest;
      r
  }

  /** The position of the first `c` in `s`, as `strpos` finds it. */
  function FirstIndexOf(s: string, c: char): (r: Option<nat>)
    ensures r.None? <==> c !in s
    ensures r.Some? ==> r.value < |s| && s[r.value] == c && c !in s[..r.value]
  {
    if s == [] then None
    else if s[0] == c then Some(0)
    else
      match FirstIndexOf(s[1..], c)
      case None => None
      case Some(n) =>
        assert s[..n + 1] == [s[0]] + s[1..][..n];
        Some(n + 1)
  }

  /**
   * One annotation text as a name and a value: split at the first `=`. The
   * test `!strpos($annotation, '=')` also holds when `=` is the first
   * character, so such a text, like one without `=`, is a name with an
   * empty value.
   */
  function ParseAnnotation(line: string): (r: (string, string))
    ensures '=' !in line ==> r == (line, "")
    ensures |line| > 0 && line[0] == '=' ==> r == (line, "")
    ensures |line| > 0 && line[0] != '=' && '=' in line ==>
      r.0 != "" && '=' !in r.0 && r.0 + "=" + r.1 == line
  {
    match FirstIndexOf(line, '=')
    case None => (line, "")
    case Some(n) =>
      if n == 0 then (line, "")
      else
        assert line == line[..n] + "=" + line[n + 1..];
        (line[..n], line[n + 1..])
  }

  /**
   * The `array_reduce` over a group: each text in turn assigns its value to
   * its name in the carried table, so a later text replaces an earlier one
   * with the same name.
   */
  function ParseLines(lines: seq<string>): (t: PhpArray)
    ensures IsStringTable(t)
    decreases |lines|
  {
    if lines == [] then []
    else
      var carry := ParseLines(lines[..|lines| - 1]);
      var p := ParseAnnotation(lines[|lines| - 1]);
      PutUnique(carry, StrKey(p.0), Leaf(Str(p.1)));
      PutKeepsAll(carry, StrKey(p.0), Leaf(Str(p.1)), (e: Entry) => e.key.StrKey? && e.val.Leaf? && e.val.scalar.Str?);
      Put(carry, StrKey(p.0), Leaf(Str(p.1)))
  }

  /** A group's value once parsed. */
  function ParsedValue(v: Option<Value>): Option<Value> {
    match v
    case None => None
    case Some(group) => Some(Arr(ParseLines(Annotations(group))))
  }

  /** The parsed table of one group's texts. */
  function ParsedEntry(e: Entry): Entry {
    Entry(e.key, Arr(ParseLines(Annotations(e.val))))
  }

  /** One step of `ParseGroups`: the parsed head in front of the parsed tail. */
  lemma {:induction false} ParseGroupsCons(a: PhpArray, rest: PhpArray)
    requires a != []
    requires Keys(rest) == Keys(a[1..])
    requires forall k :: Lookup(rest, k) == ParsedValue(Lookup(a[1..], k))
    ensures Keys([ParsedEntry(a[0])] + rest) == Keys(a)
    ensures forall k :: Lookup([ParsedEntry(a[0])] + rest, k) == ParsedValue(Lookup(a, k))
  {
    var r := [ParsedEntry(a[0])] + rest;
    assert r[1..] == rest;
    assert Keys(r) == [a[0].key] + Keys(rest);
    assert Keys(a) == [a[0].key] + Keys(a[1..]);
    forall k ensures Lookup(r, k) == ParsedValue(Lookup(a, k)) {
      LookupCons(ParsedEntry(a[0]), rest, k);
      LookupCons(a[0], a[1..], k);
      assert a == [a[0]] + a[1..];
    }
  }

  /** The `array_map` over the kept groups: each group becomes its parsed table. */
  function ParseGroups(a: PhpArray): (r: PhpArray)
    ensures Keys(r) == Keys(a)
    ensures forall k :: Lookup(r, k) == ParsedValue(Lookup(a, k))
  {
    if a == [] then []
    else
      var rest := ParseGroups(a[1..]);
      ParseGroupsCons(a, rest);
      [ParsedEntry(a[0])] + rest
  }

  /**
   * `getGlobalVariableAnnotations`: class and method annotations merged with
   * `array_merge_recursive`, only `env` and `server` kept, each parsed.
   */
  function GetGlobalVariableAnnotations(classAnnotations: PhpArray, methodAnnotations: PhpArray): (r: PhpArray)
    ensures forall k :: k in Keys(r) ==> IsGlobalGroup(k)
  {
    ParseGroups(FilterGroups(MergeRecursive(classAnnotations, methodAnnotations)))
  }

  /** The parsed table of one group of the result, empty when the group is absent. */
  function ParsedGroup(globalVars: PhpArray, name: string): PhpArray {
    match Lookup(globalVars, StrKey(name))
    case Some(Arr(es)) => es
    case _ => []
  }

  /**
   * A name/value table as the map the `foreach` writes, built in table order;
   * non-string entries, which the parser never builds, are skipped.
   */
  function AsMap(t: PhpArray): (m: map<string, string>)
    ensures forall name :: name in m ==> StrKey(name) in Keys(t)
  {
    if t == [] then map[]
    else
      var e := t[|t| - 1];
      var init := AsMap(t[..|t| - 1]);
      assert Keys(t) == Keys(t[..|t| - 1]) + [e.key];
      if e.key.StrKey? && e.val.Leaf? && e.val.scalar.Str? then init[e.key.s := e.val.scalar.s] else init
  }

  /** The two lists of one annotation name: the class texts come first, then the method texts. */
  lemma MergedGroupLines(classAnnotations: PhpArray, methodAnnotations: PhpArray, name: string)
    requires IsAnnotationTable(classAnnotations) && IsAnnotationTable(methodAnnotations)
    ensures GroupLines(MergeRecursive(classAnnotations, methodAnnotations), name)
      == GroupLines(classAnnotations, name) + GroupLines(methodAnnotations, name)
  {
    var k := StrKey(name);
    MergeRecursiveLookup(classAnnotations, methodAnnotations, k);
    var x, y := Lookup(classAnnotations, k), Lookup(methodAnnotations, k);
    if x.Some? && y.Some? {
      var i :| 0 <= i < |classAnnotations| && classAnnotations[i] == Entry(k, x.value);
      var j :| 0 <= j < |methodAnnotations| && methodAnnotations[j] == Entry(k, y.value);
      assert IsAnnotationList(x.value) && IsAnnotationList(y.value);
      var ce, me := x.value.entries, y.value.entries;
      MergeFromList(ce, me, 0);
      assert me[0..] == me;
      StringValuesConcat(Values(ce), Values(me));
    }
  }

  /**
   * What `getGlobalVariableAnnotations` holds under a name: for `env` and
   * `server`, present on either level, the table parsed from the class
   * texts followed by the method texts; nothing otherwise.
   */
  lemma GlobalVariableGroups(classAnnotations: PhpArray, methodAnnotations: PhpArray, name: string)
    requires IsAnnotationTable(classAnnotations) && IsAnnotationTable(methodAnnotations)
    ensures Lookup(GetGlobalVariableAnnotations(classAnnotations, methodAnnotations), StrKey(name)) ==
      if IsGlobalGroup(StrKey(name)) && (StrKey(name) in Keys(classAnnotations) || StrKey(name) in Keys(methodAnnotations))
      then Some(Arr(ParseLines(GroupLines(classAnnotations, name) + GroupLines(methodAnnotations, name))))
      else None
  {
    var k := StrKey(name);
    var merged := MergeRecursive(classAnnotations, methodAnnotations);
    MergeRecursiveLookup(classAnnotations, methodAnnotations, k);
    MergedGroupLines(classAnnotations, methodAnnotations, name);
  }

  /** The value parsed last for a name is the one the table keeps. */
  lemma {:induction false} ParseLinesLastWins(lines: seq<string>, n: nat)
    requires n < |lines|
    requires forall j :: n < j < |lines| ==> ParseAnnotation(lines[j]).0 != ParseAnnotation(lines[n]).0
    ensures Lookup(ParseLines(lines), StrKey(ParseAnnotation(lines[n]).0)) == Some(Leaf(Str(ParseAnnotation(lines[n]).1)))
    decreases |lines|
  {
    var init := lines[..|lines| - 1];
    if n < |lines| - 1 {
      forall j | n < j < |init| ensures ParseAnnotation(init[j]).0 != ParseAnnotation(init[n]).0 {
        assert init[j] == lines[j];
      }
      ParseLinesLastWins(init, n);
      assert init[n] == lines[n];
    }
  }

  /** Some text among `lines` carries the name `name`. */
  predicate HasName(lines: seq<string>, name: string) {
    exists n :: 0 <= n < |lines| && ParseAnnotation(lines[n]).0 == name
  }

  /** A name occurs in all the texts when it occurs before the last one or in the last one. */
  lemma HasNameSplit(lines: seq<string>, name: string)
    requires lines != []
    ensures HasName(lines, name) <==>
      HasName(lines[..|lines| - 1], name) || ParseAnnotation(lines[|lines| - 1]).0 == name
  {
    var init := lines[..|lines| - 1];
    if HasName(lines, name) {
      var n :| 0 <= n < |lines| && ParseAnnotation(lines[n]).0 == name;
      if n < |init| {
        assert init[n] == lines[n];
      }
    }
    if HasName(init, name) {
      var n :| 0 <= n < |init| && ParseAnnotation(init[n]).0 == name;
      assert lines[n] == init[n];
    }
  }

  /** A name is in the parsed table exactly when some text carries it. */
  lemma {:induction false} ParseLinesNames(lines: seq<string>, name: string)
    ensures StrKey(name) in Keys(ParseLines(lines)) <==> HasName(lines, name)
    decreases |lines|
  {
    if lines != [] {
      var init := lines[..|lines| - 1];
      ParseLinesNames(init, name);
      HasNameSplit(lines, name);
    }
  }

  /** The parsed `env` or `server` table: the class texts, then the method texts, parsed. */
  lemma ParsedGroupLines(classAnnotations: PhpArray, methodAnnotations: PhpArray, group: string)
    requires IsAnnotationTable(classAnnotations) && IsAnnotationTable(methodAnnotations)
    requires IsGlobalGroup(StrKey(group))
    ensures ParsedGroup(GetGlobalVariableAnnotations(classAnnotations, methodAnnotations), group)
      == ParseLines(GroupLines(classAnnotations, group) + GroupLines(methodAnnotations, group))
  {
    GlobalVariableGroups(classAnnotations, methodAnnotations, group);
    var lines := GroupLines(classAnnotations, group) + GroupLines(methodAnnotations, group);
    if StrKey(group) !in Keys(classAnnotations) && StrKey(group) !in Keys(methodAnnotations) {
      assert lines == [];
    }
  }

  /** In texts parsed one after the other, a later text wins over everything before it. */
  lemma ConcatLastWins(first: seq<string>, second: seq<string>, n: nat)
    requires n < |second|
    requires forall j :: n < j < |second| ==> ParseAnnotation(second[j]).0 != ParseAnnotation(second[n]).0
    ensures Lookup(ParseLines(first + second), StrKey(ParseAnnotation(second[n]).0)) == Some(Leaf(Str(ParseAnnotation(second[n]).1)))
  {
    var lines := first + second;
    var at := |first| + n;
    assert lines[at] == second[n];
    forall j | at < j < |lines|
      ensures ParseAnnotation(lines[j]).0 != ParseAnnotation(lines[at]).0
    {
      assert lines[j] == second[j - |first|];
    }
    ParseLinesLastWins(lines, at);
  }

  /** A method annotation overrides a class annotation of the same name. */
  lemma MethodAnnotationWins(classAnnotations: PhpArray, methodAnnotations: PhpArray, group: string, n: nat)
    requires IsAnnotationTable(classAnnotations) && IsAnnotationTable(methodAnnotations)
    requires IsGlobalGroup(StrKey(group))
    requires n < |GroupLines(methodAnnotations, group)|
    requires var lines := GroupLines(methodAnnotations, group);
      forall j :: n < j < |lines| ==> ParseAnnotation(lines[j]).0 != ParseAnnotation(lines[n]).0
    ensures var p := ParseAnnotation(GroupLines(methodAnnotations, group)[n]);
      Lookup(ParsedGroup(GetGlobalVariableAnnotations(classAnnotations, methodAnnotations), group), StrKey(p.0))
        == Some(Leaf(Str(p.1)))
  {
    ParsedGroupLines(classAnnotations, methodAnnotations, group);
    ConcatLastWins(GroupLines(classAnnotations, group), GroupLines(methodAnnotations, group), n);
  }

  /** A class annotation whose name no method annotation reuses keeps its value. */
  lemma ClassAnnotationKept(classAnnotations: PhpArray, methodAnnotations: PhpArray, group: string, n: nat)
    requires IsAnnotationTable(classAnnotations) && IsAnnotationTable(methodAnnotations)
    requires IsGlobalGroup(StrKey(group))
    requires n < |GroupLines(classAnnotations, group)|
    requires var lines := GroupLines(classAnnotations, group) + GroupLines(methodAnnotations, group);
      forall j :: n < j < |lines| ==> ParseAnnotation(lines[j]).0 != ParseAnnotation(lines[n]).0
    ensures var p := ParseAnnotation(GroupLines(classAnnotations, group)[n]);
      Lookup(ParsedGroup(GetGlobalVariableAnnotations(classAnnotations, methodAnnotations), group), StrKey(p.0))
        == Some(Leaf(Str(p.1)))
  {
    var lines := GroupLines(classAnnotations, group) + GroupLines(methodAnnotations, group);
    ParsedGroupLines(classAnnotations, methodAnnotations, group);
    assert lines[n] == GroupLines(classAnnotations, group)[n];
    ParseLinesLastWins(lines, n);
  }

  /** The map a parsed table writes holds exactly its names, each with its value. */
  lemma {:induction false} AsMapOfTable(t: PhpArray, name: string)
    requires IsStringTable(t)
    ensures name in AsMap(t) <==> StrKey(name) in Keys(t)
    ensures name in AsMap(t) ==> Lookup(t, StrKey(name)) == Some(Leaf(Str(AsMap(t)[name])))
    decreases |t|
  {
    if t != [] {
      var init, e := t[..|t| - 1], t[|t| - 1];
      assert t == init + [e];
      assert IsStringTable(init) by {
        forall m, n | 0 <= m < n < |init| ensures init[m].key != init[n].key {
          assert init[m] == t[m] && init[n] == t[n];
        }
        forall n | 0 <= n < |init| ensures init[n].key.StrKey? && init[n].val.Leaf? && init[n].val.scalar.Str? {
          assert init[n] == t[n];
        }
      }
      AsMapOfTable(init, name);
      LookupAppended(init, e, StrKey(name));
      assert Keys(t) == Keys(init) + [e.key];
    }
  }

  /** Writing one more entry of a table. */
  lemma AsMapStep(t: PhpArray, i: nat, globals: map<string, string>)
    requires i < |t|
    ensures var e := t[i];
      globals + AsMap(t[..i + 1]) ==
        if e.key.StrKey? && e.val.Leaf? && e.val.scalar.Str?
        then (globals + AsMap(t[..i]))[e.key.s := e.val.scalar.s]
        else globals + AsMap(t[..i])
  {
    assert t[..i + 1][..i] == t[..i];
  }

  /**
   * One `foreach` of `checkRequirements`: each name of the parsed table is
   * assigned its value, in table order, over the variables already there.
   */
  method WriteTable(vars: map<string, string>, table: PhpArray) returns (written: map<string, string>)
    ensures written == vars + AsMap(table)
  {
    written := vars;
    var i := 0;
    assert table[..0] == [] && vars + map[] == vars;
    while i < |table|
      invariant 0 <= i <= |table|
      invariant written == vars + AsMap(table[..i])
    {
      var e := table[i];
      AsMapStep(table, i, vars);
      if e.key.StrKey? && e.val.Leaf? && e.val.scalar.Str? {
        written := written[e.key.s := e.val.scalar.s];
      }
      i := i + 1;
    }
    assert table[..|table|] == table;
  }

  /**
   * The two guarded loops of `checkRequirements`: the parsed `env` table is
   * written into `$_ENV` and the parsed `server` table into `$_SERVER`;
   * other variables keep their values, and an absent or empty group writes
   * nothing.
   */
  method WriteGlobalVariables(globals: Superglobals, globalVars: PhpArray)
    modifies globals
    ensures globals.env == old(globals.env) + AsMap(ParsedGroup(globalVars, "env"))
    ensures globals.server == old(globals.server) + AsMap(ParsedGroup(globalVars, "server"))
  {
    var env := ParsedGroup(globalVars, "env");
    if env != [] {
      globals.env := WriteTable(globals.env, env);
    } else {
      assert globals.env + map[] == globals.env;
    }
    var server := ParsedGroup(globalVars, "server");
    if server != [] {
      globals.server := WriteTable(globals.server, server);
    } else {
      assert globals.server + map[] == globals.server;
    }
  }

  /**
   * `checkRequirements`: reads the `env` and `server` annotations and
   * writes them into the globals.
   */
  method CheckRequirements(globals: Superglobals, classAnnotations: PhpArray, methodAnnotations: PhpArray)
    modifies globals
    ensures var globalVars := GetGlobalVariableAnnotations(classAnnotations, methodAnnotations);
      && globals.env == old(globals.env) + AsMap(ParsedGroup(globalVars, "env"))
      && globals.server == old(globals.server) + AsMap(ParsedGroup(globalVars, "server"))
  {
    var globalVars := GetGlobalVariableAnnotations(classAnnotations, methodAnnotations);
    WriteGlobalVariables(globals, globalVars);
  }
}
