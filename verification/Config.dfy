/**
 The my.cnf text (internal/controller/k8s/configmap/config_map.go) and the digest of
 the ConfigMap that decides whether pods are restarted
 (internal/controller/util/mysql_helpers.go). SHA-256 is left out: the model stops at
 the bytes fed to it.
 */
module Config {
  import opened Text
  import Decimal

  type Options = map<string, string>

  /** intstr.IntOrString. */
  datatype IntOrString = Int(i: int) | Str(s: string) {
    function Show(): string {
      match this
      case Int(i) => Decimal.Itoa(i)
      case Str(s) => s
    }
  }

  const BOOLEAN_FLAGS := ["skip-name-resolve"]
  const HEADER := "[mysqld]"
  const INCLUDE := "!includedir /etc/mysql/conf.d"

  function Shown(overrides: map<string, IntOrString>): Options {
    map k | k in overrides :: overrides[k].Show()
  }

  /** The effective options: overrides first, then the base (or the defaults when the
      base is empty), then the boolean flags with an empty value. */
  function Merge(defaults: Options, base: Options, overrides: map<string, IntOrString>): Options {
    (map k | k in BOOLEAN_FLAGS :: "") + (if |base| == 0 then defaults else base) + Shown(overrides)
  }

  function Body(key: string, value: string): string {
    if value == "" then key else key + " = " + value
  }

  function Bodies(keys: seq<string>, m: Options): seq<string>
    requires forall i :: 0 <= i < |keys| ==> keys[i] in m
  {
    seq(|keys|, i requires 0 <= i < |keys| => Body(keys[i], m[keys[i]]))
  }

  ghost function SortedKeys(m: Options): (keys: seq<string>)
    ensures Ascending(keys) && Elements(keys) == m.Keys
    ensures forall i :: 0 <= i < |keys| ==> keys[i] in m
  {
    assert forall i :: 0 <= i < |Sorted(m.Keys)| ==> Sorted(m.Keys)[i] in Elements(Sorted(m.Keys));
    Sorted(m.Keys)
  }

  /** The file: the section header, one line per key in ascending order, the include. */
  ghost function Rendered(m: Options): string {
    Terminate([HEADER] + Bodies(SortedKeys(m), m) + [INCLUDE], '\n')
  }

  // ---------------------------------------------------------------- the imperative form

  /** Collecting the keys of a map in whatever order it is iterated, then sorting. */
  method KeysInOrder(m: Options) returns (keys: seq<string>)
    ensures keys == SortedKeys(m)
  {
    var found: seq<string> := [];
    var left := m.Keys;
    while left != {}
      invariant left <= m.Keys && Elements(found) == m.Keys - left
      invariant forall i, j :: 0 <= i < j < |found| ==> found[i] != found[j]
      decreases left
    {
      var k :| k in left;
      assert k !in Elements(found);
      ElementsAppend(found, k);
      found := found + [k];
      left := left - {k};
    }
    assert Elements(found) == m.Keys;
    keys := SortStrings(found);
  }

  method CopyAll(into: Options, source: Options) returns (r: Options)
    ensures r == into + source
  {
    r := into;
    var left := source.Keys;
    while left != {}
      invariant left <= source.Keys
      invariant r == into + (source - left)
      decreases left
    {
      var k :| k in left;
      r := r[k := source[k]];
      left := left - {k};
    }
  }

  method CopyShown(into: Options, overrides: map<string, IntOrString>) returns (r: Options)
    ensures r == into + Shown(overrides)
  {
    r := into;
    var left := overrides.Keys;
    while left != {}
      invariant left <= overrides.Keys
      invariant r == into + (Shown(overrides) - left)
      decreases left
    {
      var k :| k in left;
      r := r[k := overrides[k].Show()];
      left := left - {k};
    }
  }

  /** RenderMySQLConfig: three loops fill the map, the keys are sorted, a builder is
      filled; for every iteration order of the maps the text is the same. */
  method RenderMySQLConfig(defaults: Options, base: Options, overrides: map<string, IntOrString>) returns (text: string)
    ensures text == Rendered(Merge(defaults, base, overrides))
  {
    var source := if |base| == 0 then defaults else base;
    var effective := CopyAll(map[], source);
    for i := 0 to |BOOLEAN_FLAGS|
      invariant effective == (map k | k in BOOLEAN_FLAGS[..i] :: "") + source
    {
      if BOOLEAN_FLAGS[i] !in effective {
        effective := effective[BOOLEAN_FLAGS[i] := ""];
      }
      assert BOOLEAN_FLAGS[..i + 1] == BOOLEAN_FLAGS[..i] + [BOOLEAN_FLAGS[i]];
    }
    assert BOOLEAN_FLAGS[..|BOOLEAN_FLAGS|] == BOOLEAN_FLAGS;
    effective := CopyShown(effective, overrides);
    var keys := KeysInOrder(effective);
    text := WriteLines(keys, effective);
  }

  method WriteLines(keys: seq<string>, m: Options) returns (text: string)
    requires forall i :: 0 <= i < |keys| ==> keys[i] in m
    ensures text == Terminate([HEADER] + Bodies(keys, m) + [INCLUDE], '\n')
  {
    text := HEADER + "\n";
    ghost var lines := [HEADER];
    TerminateOne(HEADER);
    for i := 0 to |keys|
      invariant lines == [HEADER] + Bodies(keys[..i], m)
      invariant text == Terminate(lines, '\n')
    {
      var line := Body(keys[i], m[keys[i]]);
      TerminateAppend(lines, [line], '\n');
      TerminateOne(line);
      text := text + (line + "\n");
      lines := lines + [line];
      assert Bodies(keys[..i + 1], m) == Bodies(keys[..i], m) + [line];
    }
    assert keys[..|keys|] == keys;
    TerminateAppend(lines, [INCLUDE], '\n');
    TerminateOne(INCLUDE);
    text := text + (INCLUDE + "\n");
  }

  lemma TerminateOne(part: string)
    ensures Terminate([part], '\n') == part + "\n"
  {
  }

  // ---------------------------------------------------------------- reading the file back

  /** The separator " = " stands at position i. */
  predicate SplitsAt(s: string, i: int) {
    0 <= i && i + 3 <= |s| && s[i] == ' ' && s[i + 1] == '=' && s[i + 2] == ' '
  }

  function FirstSplit(s: string): (i: nat)
    ensures i <= |s| && (i < |s| ==> SplitsAt(s, i)) && forall j :: 0 <= j < i ==> !SplitsAt(s, j)
    decreases |s|
  {
    if s == [] || SplitsAt(s, 0) then 0
    else
      var k := FirstSplit(s[1..]);
      assert forall j :: 1 <= j ==> (SplitsAt(s, j) <==> SplitsAt(s[1..], j - 1));
      k + 1
  }

  /** A line is a bare key, or a key and a value around the first " = ". */
  function ReadLine(line: string): (string, string) {
    var i := FirstSplit(line);
    if i < |line| then (line[..i], line[i + 3..]) else (line, "")
  }

  function ReadLines(lines: seq<string>): Options
    decreases |lines|
  {
    if lines == [] then map[]
    else
      var (k, v) := ReadLine(lines[|lines| - 1]);
      ReadLines(lines[..|lines| - 1])[k := v]
  }

  function Read(text: string): Options {
    var lines := Split(text, '\n');
    if |lines| < 3 then map[] else ReadLines(lines[1..|lines| - 2])
  }

  /** The key holds " = " or ends in " =". */
  ghost predicate Ambiguous(key: string) {
    exists i :: SplitsAt(key + " ", i)
  }

  /** Keys and values on one line, with no ambiguous key. */
  ghost predicate Clean(m: Options) {
    forall k :: k in m ==> !Ambiguous(k) && '\n' !in k && '\n' !in m[k]
  }

  /** A separator before the end of the key lies inside the key and its space. */
  lemma SplitBeforeEnd(key: string, value: string, i: nat)
    requires i < |key| && SplitsAt(Body(key, value), i)
    ensures SplitsAt(key + " ", i)
  {
    var line := Body(key, value);
    assert forall j :: 0 <= j < |key| ==> line[j] == key[j];
    assert value != "" ==> line[|key|] == ' ';
  }

  lemma ReadBody(key: string, value: string)
    requires !Ambiguous(key)
    ensures ReadLine(Body(key, value)) == (key, value)
  {
    var line := Body(key, value);
    var i := FirstSplit(line);
    if i < |key| {
      SplitBeforeEnd(key, value, i);
    }
    if value != "" {
      assert SplitsAt(line, |key|);
      assert line[..|key|] == key && line[|key| + 3..] == value;
    }
  }

  lemma BodiesInit(keys: seq<string>, m: Options)
    requires keys != [] && forall i :: 0 <= i < |keys| ==> keys[i] in m
    ensures var n := |keys| - 1;
            Bodies(keys, m)[..n] == Bodies(keys[..n], m) && Bodies(keys, m)[n] == Body(keys[n], m[keys[n]])
  {
  }

  lemma RestrictedInit(keys: seq<string>, m: Options)
    requires keys != [] && forall i :: 0 <= i < |keys| ==> keys[i] in m
    ensures var n := |keys| - 1;
            (map k | k in keys :: m[k]) == (map k | k in keys[..n] :: m[k])[keys[n] := m[keys[n]]]
  {
    assert keys == keys[..|keys| - 1] + [keys[|keys| - 1]];
  }

  lemma {:induction false} ReadBodies(keys: seq<string>, m: Options)
    requires forall i :: 0 <= i < |keys| ==> keys[i] in m
    requires Clean(m)
    ensures ReadLines(Bodies(keys, m)) == map k | k in keys :: m[k]
    decreases |keys|
  {
    if keys != [] {
      var n := |keys| - 1;
      ReadBodies(keys[..n], m);
      ReadBody(keys[n], m[keys[n]]);
      BodiesInit(keys, m);
      RestrictedInit(keys, m);
    }
  }

  lemma NoNewlineInBody(key: string, value: string)
    requires '\n' !in key && '\n' !in value
    ensures '\n' !in Body(key, value)
  {
  }

  lemma LinesAreLines(m: Options)
    requires Clean(m)
    ensures var lines := [HEADER] + Bodies(SortedKeys(m), m) + [INCLUDE];
            forall i :: 0 <= i < |lines| ==> '\n' !in lines[i]
  {
    var keys := SortedKeys(m);
    assert '\n' !in HEADER && '\n' !in INCLUDE;
    forall i | 0 <= i < |keys| ensures '\n' !in Bodies(keys, m)[i] {
      NoNewlineInBody(keys[i], m[keys[i]]);
    }
  }

  lemma ReadMiddle(bodies: seq<string>)
    requires var lines := [HEADER] + bodies + [INCLUDE];
             forall i :: 0 <= i < |lines| ==> '\n' !in lines[i]
    ensures Read(Terminate([HEADER] + bodies + [INCLUDE], '\n')) == ReadLines(bodies)
  {
    SplitTerminate([HEADER] + bodies + [INCLUDE], '\n');
    MiddleLines(HEADER, bodies, INCLUDE);
  }

  lemma MiddleLines(first: string, bodies: seq<string>, last: string)
    ensures var all := [first] + bodies + [last] + [""];
            |all| == |bodies| + 3 && all[1..|all| - 2] == bodies
  {
  }

  /** Reading the rendered file gives back the effective options. */
  lemma RenderRoundTrip(m: Options)
    requires Clean(m)
    ensures Read(Rendered(m)) == m
  {
    var keys := SortedKeys(m);
    LinesAreLines(m);
    ReadMiddle(Bodies(keys, m));
    ReadBodies(keys, m);
    assert forall k :: k in keys <==> k in Elements(keys);
  }

  /** For clean options the file determines the options. */
  lemma RenderInjective(m1: Options, m2: Options)
    requires Clean(m1) && Clean(m2)
    ensures Rendered(m1) == Rendered(m2) <==> m1 == m2
  {
    RenderRoundTrip(m1);
    RenderRoundTrip(m2);
  }

  lemma RenderedOne(key: string, value: string)
    ensures Rendered(map[key := value]) == Terminate([HEADER] + [Body(key, value)] + [INCLUDE], '\n')
  {
    var m: Options := map[key := value];
    assert Elements([key]) == {key} == m.Keys;
    AscendingUnique(SortedKeys(m), [key]);
    assert Bodies([key], m) == [Body(key, value)];
  }

  lemma RenderedOneEqualIff(k1: string, v1: string, k2: string, v2: string)
    ensures Rendered(map[k1 := v1]) == Rendered(map[k2 := v2]) <==> Body(k1, v1) == Body(k2, v2)
  {
    RenderedOne(k1, v1);
    RenderedOne(k2, v2);
    OneLine(Body(k1, v1));
    OneLine(Body(k2, v2));
    if Rendered(map[k1 := v1]) == Rendered(map[k2 := v2]) {
      var head, tail := HEADER + "\n", "\n" + (INCLUDE + "\n");
      SamePrefix(Body(k1, v1) + tail, Body(k2, v2) + tail, head);
      SameSuffix(Body(k1, v1), Body(k2, v2), tail);
    }
  }

  lemma OneLine(line: string)
    ensures Terminate([HEADER] + [line] + [INCLUDE], '\n') == (HEADER + "\n") + (line + ("\n" + (INCLUDE + "\n")))
  {
    TerminateAppend([HEADER] + [line], [INCLUDE], '\n');
    TerminateAppend([HEADER], [line], '\n');
    TerminateOne(HEADER);
    TerminateOne(line);
    TerminateOne(INCLUDE);
    Assoc(HEADER + "\n", line + "\n", INCLUDE + "\n");
    Assoc(line, "\n", INCLUDE + "\n");
  }

  /** The line of an ambiguous key, with any value, is also the line of a shorter key. */
  lemma AmbiguousCollides(key: string, value: string, i: nat)
    requires value != "" && SplitsAt(key + " ", i)
    ensures i < |key|
    ensures var rest := (key + " = " + value)[i + 3..];
            rest != "" && Body(key, value) == Body(key[..i], rest)
  {
    var line := key + " = " + value;
    assert line == (key + " ") + ("= " + value);
    assert line[i..i + 3] == " = ";
    assert line[..i] == key[..i];
    assert line == line[..i] + line[i..i + 3] + line[i + 3..];
  }

  /** Exactly the ambiguous keys can share their file with an option of a shorter key. */
  lemma KeyConfusedIff(key: string)
    ensures Ambiguous(key) <==>
            exists v: string, k': string, v': string ::
              |k'| < |key| && Rendered(map[key := v]) == Rendered(map[k' := v'])
  {
    if Ambiguous(key) {
      var i :| SplitsAt(key + " ", i);
      AmbiguousCollides(key, "x", i);
      RenderedOneEqualIff(key, "x", key[..i], (key + " = " + "x")[i + 3..]);
    }
    if v: string, k': string, v': string :| |k'| < |key| && Rendered(map[key := v]) == Rendered(map[k' := v']) {
      RenderedOneEqualIff(key, v, k', v');
      assert SplitsAt(Body(k', v'), |k'|);
      SplitBeforeEnd(key, v, |k'|);
    }
  }

  /** A bare key holding " = " reads as a key and a value. */
  lemma EqualsSignConfuses(key: string, value: string)
    requires value != ""
    ensures map[key := value] != map[key + " = " + value := ""]
    ensures Rendered(map[key := value]) == Rendered(map[key + " = " + value := ""])
  {
    RenderedOneEqualIff(key, value, key + " = " + value, "");
    assert |key + " = " + value| > |key|;
    assert key in map[key := value];
  }

  /** A newline in a value imitates a bare key that sorts after its own. In the other
      order the two files differ, unless the first key runs over the second and a
      newline itself. */
  lemma NewlineConfuses(k1: string, v1: string, k2: string)
    requires v1 != "" && k1 != k2
    ensures map[k1 := v1 + "\n" + k2] != map[k1 := v1, k2 := ""]
    ensures var same := Rendered(map[k1 := v1 + "\n" + k2]) == Rendered(map[k1 := v1, k2 := ""]);
            && (Below(k1, k2) ==> same)
            && (same ==> Below(k1, k2) || k2 + "\n" <= k1)
            && ('\n' !in k1 ==> (same <==> Below(k1, k2)))
  {
    var one: Options, two: Options := map[k1 := v1 + "\n" + k2], map[k1 := v1, k2 := ""];
    assert k2 in two && k2 !in one;
    RenderedOne(k1, v1 + "\n" + k2);
    BelowTotal(k1, k2);
    if Below(k1, k2) {
      RenderedTwo(two, k1, k2);
      TwoLines(k1, v1, k2);
    } else if Rendered(one) == Rendered(two) {
      RenderedTwo(two, k2, k1);
      LineStarts(Body(k1, v1 + "\n" + k2), [Body(k1, v1 + "\n" + k2)]);
      LineStarts(k2, [k2, Body(k1, v1)]);
      KeyRunsOver(k2, k1, Rendered(one)[|HEADER| + 1..]);
      assert '\n' in k2 + "\n";
    }
  }

  /** The text after the header starts with the first line and its newline. */
  lemma LineStarts(line: string, lines: seq<string>)
    requires lines != [] && lines[0] == line
    ensures var text := Terminate([HEADER] + lines + [INCLUDE], '\n');
            |text| > |HEADER| && line + "\n" <= text[|HEADER| + 1..]
  {
    var all := [HEADER] + lines + [INCLUDE];
    assert all[1..] == lines + [INCLUDE] && all[1..][0] == line;
    var rest := Terminate(all[1..], '\n');
    assert Terminate(all, '\n') == HEADER + "\n" + rest;
    assert rest == line + "\n" + Terminate(all[1..][1..], '\n');
  }

  /** Of two keys that start one text, the first ended by a newline, the second is not
      above the first unless it holds that newline too. */
  lemma {:induction false} KeyRunsOver(a: string, b: string, text: string)
    requires a + "\n" <= text && b <= text && Below(a, b)
    ensures a + "\n" <= b
    decreases |a|
  {
    assert text[0] == (a + "\n")[0] == b[0];
    if a != [] {
      assert (a + "\n")[1..] == a[1..] + "\n";
      KeyRunsOver(a[1..], b[1..], text[1..]);
    }
  }

  lemma RenderedTwo(m: Options, k1: string, k2: string)
    requires m.Keys == {k1, k2} && Below(k1, k2)
    ensures Rendered(m) == Terminate([HEADER] + [Body(k1, m[k1]), Body(k2, m[k2])] + [INCLUDE], '\n')
  {
    var keys := [k1, k2];
    assert Ascending(keys);
    assert Elements(keys) == {k1, k2};
    AscendingUnique(SortedKeys(m), keys);
    assert Bodies(keys, m) == [Body(k1, m[k1]), Body(k2, m[k2])];
  }

  lemma TwoLines(k1: string, v1: string, k2: string)
    requires v1 != ""
    ensures Terminate([HEADER] + [Body(k1, v1 + "\n" + k2)] + [INCLUDE], '\n')
            == Terminate([HEADER] + [Body(k1, v1), k2] + [INCLUDE], '\n')
  {
    var long, lines := [Body(k1, v1 + "\n" + k2)], [Body(k1, v1), k2];
    assert Terminate(long, '\n') == Terminate(lines, '\n') by {
      TerminateOne(Body(k1, v1 + "\n" + k2));
      TerminateOne(k2);
      assert Terminate(lines, '\n') == Body(k1, v1) + "\n" + Terminate([k2], '\n');
      Assoc(k1 + " = ", v1 + "\n", k2);
      Assoc(k1 + " = ", v1, "\n");
      Assoc(Body(k1, v1) + "\n", k2, "\n");
    }
    TerminateAppend([HEADER] + long, [INCLUDE], '\n');
    TerminateAppend([HEADER] + lines, [INCLUDE], '\n');
    TerminateAppend([HEADER], long, '\n');
    TerminateAppend([HEADER], lines, '\n');
  }

  // ---------------------------------------------------------------- the digest input

  /** Keys and values alternately. */
  function Fields(keys: seq<string>, data: Options): seq<string>
    requires forall i :: 0 <= i < |keys| ==> keys[i] in data
    decreases |keys|
  {
    if keys == [] then [] else [keys[0], data[keys[0]]] + Fields(keys[1..], data)
  }

  /** The four writes of one entry. */
  function Entry(k: string, v: string): string {
    k + ['\0'] + v + ['\0']
  }

  /** The bytes HashConfigMapData feeds to SHA-256. */
  ghost function DigestInput(data: Options): string {
    Terminate(Fields(SortedKeys(data), data), '\0')
  }

  /** HashConfigMapData up to the hash: nothing for empty data, otherwise the bytes. */
  method HashInput(data: Options) returns (hashed: bool, input: string)
    ensures hashed <==> data != map[]
    ensures hashed ==> input == DigestInput(data)
  {
    if |data| == 0 {
      return false, "";
    }
    var keys := KeysInOrder(data);
    input := "";
    for i := 0 to |keys|
      invariant input == Terminate(Fields(keys[..i], data), '\0')
    {
      var k := keys[i];
      EntryBytes(keys[..i], k, data);
      assert keys[..i + 1] == keys[..i] + [k];
      input := WriteEntry(input, k, data[k]);
    }
    assert keys[..|keys|] == keys;
    hashed := true;
  }

  method WriteEntry(input: string, k: string, v: string) returns (r: string)
    ensures r == input + Entry(k, v)
  {
    r := input + k;
    r := r + ['\0'];
    r := r + v;
    r := r + ['\0'];
    Assoc(input, k, ['\0']);
    Assoc(input, k + ['\0'], v);
    Assoc(input, k + ['\0'] + v, ['\0']);
  }

  lemma {:induction false} FieldsAppend(a: seq<string>, b: seq<string>, data: Options)
    requires forall i :: 0 <= i < |a| ==> a[i] in data
    requires forall i :: 0 <= i < |b| ==> b[i] in data
    ensures Fields(a + b, data) == Fields(a, data) + Fields(b, data)
    decreases |a|
  {
    if a == [] {
      assert a + b == b;
    } else {
      assert (a + b)[1..] == a[1..] + b;
      FieldsAppend(a[1..], b, data);
    }
  }

  lemma EntryBytes(keys: seq<string>, k: string, data: Options)
    requires (forall i :: 0 <= i < |keys| ==> keys[i] in data) && k in data
    ensures Terminate(Fields(keys + [k], data), '\0')
            == Terminate(Fields(keys, data), '\0') + Entry(k, data[k])
  {
    FieldsAppend(keys, [k], data);
    TerminateAppend(Fields(keys, data), [k, data[k]], '\0');
    assert Fields([k], data) == [k, data[k]] + Fields([], data) == [k, data[k]];
    assert Terminate([k, data[k]], '\0') == k + ['\0'] + Terminate([data[k]], '\0');
    assert Terminate([data[k]], '\0') == data[k] + ['\0'] + Terminate([], '\0');
    Assoc(k + ['\0'], data[k], ['\0']);
  }

  /** Pairs up fields again. */
  function Pairs(fields: seq<string>): Options
    decreases |fields|
  {
    if |fields| < 2 then map[]
    else Pairs(fields[2..]) + map[fields[0] := fields[1]]
  }

  function Decode(input: string): Options {
    Pairs(Split(input, '\0'))
  }

  predicate NulFree(data: Options) {
    forall k :: k in data ==> '\0' !in k && '\0' !in data[k]
  }

  lemma {:induction false} PairsOfFields(keys: seq<string>, data: Options)
    requires (forall i :: 0 <= i < |keys| ==> keys[i] in data)
    ensures Pairs(Fields(keys, data) + [""]) == map k | k in keys :: data[k]
    decreases |keys|
  {
    if keys != [] {
      var rest := Fields(keys[1..], data);
      PairsOfFields(keys[1..], data);
      assert (Fields(keys, data) + [""])[2..] == rest + [""];
      assert keys == [keys[0]] + keys[1..];
    }
  }

  lemma {:induction false} FieldsNulFree(keys: seq<string>, data: Options)
    requires (forall i :: 0 <= i < |keys| ==> keys[i] in data) && NulFree(data)
    ensures forall i :: 0 <= i < |Fields(keys, data)| ==> '\0' !in Fields(keys, data)[i]
    decreases |keys|
  {
    if keys != [] {
      FieldsNulFree(keys[1..], data);
    }
  }

  /** The data is recovered from the bytes, so different data feed different bytes. */
  lemma DigestRoundTrip(data: Options)
    requires NulFree(data)
    ensures Decode(DigestInput(data)) == data
  {
    var keys := SortedKeys(data);
    FieldsNulFree(keys, data);
    SplitTerminate(Fields(keys, data), '\0');
    PairsOfFields(keys, data);
    assert forall k :: k in keys <==> k in Elements(keys);
  }

  lemma EntryImitates(k1: string, v1: string, k2: string, v2: string)
    ensures Entry(k1, v1 + ['\0'] + k2 + ['\0'] + v2) == Entry(k1, v1) + Entry(k2, v2)
  {
    var a, q := k1 + ['\0'], k2 + ['\0'] + v2;
    Assoc(v1 + ['\0'], k2, ['\0']);
    Assoc(v1 + ['\0'], k2 + ['\0'], v2);
    Assoc(a, v1 + ['\0'], q);
    Assoc(a, v1, ['\0']);
    Assoc(Entry(k1, v1), q, ['\0']);
  }

  lemma DigestOfOne(m: Options, k: string)
    requires m.Keys == {k}
    ensures DigestInput(m) == Entry(k, m[k])
  {
    assert Elements([k]) == {k};
    AscendingUnique(SortedKeys(m), [k]);
    EntryBytes([], k, m);
    assert [] + [k] == [k];
  }

  lemma BytesOfTwo(m: Options, k1: string, k2: string)
    requires k1 in m && k2 in m
    ensures Terminate(Fields([k1, k2], m), '\0') == Entry(k1, m[k1]) + Entry(k2, m[k2])
  {
    EntryBytes([], k1, m);
    assert [] + [k1] == [k1];
    EntryBytes([k1], k2, m);
    assert [k1] + [k2] == [k1, k2];
  }

  lemma DigestOfTwo(m: Options, k1: string, k2: string)
    requires m.Keys == {k1, k2} && Below(k1, k2)
    ensures DigestInput(m) == Entry(k1, m[k1]) + Entry(k2, m[k2])
  {
    BytesOfTwo(m, k1, k2);
    var keys := [k1, k2];
    assert Ascending(keys);
    assert Elements(keys) == {k1, k2};
    AscendingUnique(SortedKeys(m), keys);
  }

  /** With NULs in values it is not: one entry can imitate two. */
  lemma NulConfuses(k1: string, v1: string, k2: string, v2: string)
    requires Below(k1, k2)
    ensures DigestInput(map[k1 := v1 + ['\0'] + k2 + ['\0'] + v2]) == DigestInput(map[k1 := v1, k2 := v2])
    ensures map[k1 := v1 + ['\0'] + k2 + ['\0'] + v2] != map[k1 := v1, k2 := v2]
  {
    BelowIrreflexive(k1);
    var joined := v1 + ['\0'] + k2 + ['\0'] + v2;
    assert k2 in map[k1 := v1, k2 := v2] && k2 !in map[k1 := joined];
    DigestOfOne(map[k1 := joined], k1);
    DigestOfTwo(map[k1 := v1, k2 := v2], k1, k2);
    EntryImitates(k1, v1, k2, v2);
  }

  /** Two writings of one entry: the bytes of an entry determine it exactly when it
      holds no NUL. */
  lemma EntryConfusedIff(k: string, v: string)
    ensures ('\0' in k || '\0' in v) <==>
            exists k': string, v': string :: (k' != k || v' != v) && Entry(k', v') == Entry(k, v)
  {
    if '\0' in k {
      var i :| 0 <= i < |k| && k[i] == '\0';
      assert k == k[..i] + ['\0'] + k[i + 1..];
      EntryShifts(k[..i], k[i + 1..], v);
      assert |k[..i]| < |k|;
    } else if '\0' in v {
      var i :| 0 <= i < |v| && v[i] == '\0';
      assert v == v[..i] + ['\0'] + v[i + 1..];
      EntryShifts(k, v[..i], v[i + 1..]);
      assert |v[i + 1..]| < |v|;
    } else {
      forall k': string, v': string | Entry(k', v') == Entry(k, v) ensures k' == k && v' == v {
        EntryDetermined(k, v, k', v');
      }
    }
  }

  lemma EntryShifts(a: string, b: string, c: string)
    ensures Entry(a + ['\0'] + b, c) == Entry(a, b + ['\0'] + c)
  {
    Assoc(a + ['\0'], b, ['\0'] + c);
    Assoc(a + ['\0'] + b, ['\0'], c);
    Assoc(b, ['\0'], c);
  }

  lemma EntryDetermined(k: string, v: string, k': string, v': string)
    requires '\0' !in k && '\0' !in v && Entry(k', v') == Entry(k, v)
    ensures k' == k && v' == v
  {
    var e := Entry(k, v);
    assert Entry(k', v')[|k'|] == '\0';
    assert e[|k'|] == '\0' && |k'| < |e| - 1;
    assert forall i :: 0 <= i < |k| ==> e[i] == k[i];
    assert forall i :: 0 <= i < |v| ==> e[|k| + 1 + i] == v[i];
    assert |k'| == |k|;
    assert k == e[..|k|] && k' == Entry(k', v')[..|k|];
    assert v == e[|k| + 1..|e| - 1] && v' == Entry(k', v')[|k| + 1..|e| - 1];
  }

  /** All the bytes of some data are also those of one entry, whose value holds a NUL
      when there were several. */
  lemma DigestAsOne(data: Options) returns (k: string, v: string)
    requires data != map[]
    ensures k in data && DigestInput(data) == Entry(k, v)
    ensures if data.Keys == {k} then data[k] == v else '\0' in v
  {
    var keys := SortedKeys(data);
    assert keys != [] by {
      var j :| j in data;
      assert j in Elements(keys);
    }
    k := keys[0];
    if |keys| == 1 {
      assert keys == [k];
      assert data.Keys == {k};
      DigestOfOne(data, k);
      v := data[k];
    } else {
      v := SeveralAsOne(keys, data);
      BelowIrreflexive(k);
      assert Below(k, keys[1]) && keys[1] in data && keys[1] !in {k};
    }
  }

  lemma SeveralAsOne(keys: seq<string>, data: Options) returns (v: string)
    requires |keys| >= 2 && forall i :: 0 <= i < |keys| ==> keys[i] in data
    ensures Terminate(Fields(keys, data), '\0') == Entry(keys[0], v) && '\0' in v
  {
    var k, last := keys[0], keys[|keys| - 1];
    var mid := keys[1..|keys| - 1];
    assert keys == [k] + mid + [last];
    var t := Terminate(Fields(mid, data), '\0');
    v := data[k] + ['\0'] + (t + (last + ['\0'] + data[last]));
    EntryBytes([k] + mid, last, data);
    FieldsAppend([k], mid, data);
    TerminateAppend(Fields([k], data), Fields(mid, data), '\0');
    EntryBytes([], k, data);
    assert [] + [k] == [k];
    assert Terminate(Fields(keys, data), '\0') == Entry(k, data[k]) + t + Entry(last, data[last]);
    assert v[|data[k]|] == '\0';
  }

  lemma DigestOfNone(data: Options)
    ensures DigestInput(data) == "" <==> data == map[]
  {
    if data == map[] {
      AscendingUnique(SortedKeys(data), []);
    } else {
      var k, v := DigestAsOne(data);
    }
  }

  lemma NulFreeDetermined(k: string, v: string, other: Options)
    requires '\0' !in k && '\0' !in v && DigestInput(other) == Entry(k, v)
    ensures other == map[k := v]
  {
    DigestOfNone(other);
    var k', v' := DigestAsOne(other);
    EntryDetermined(k, v, k', v');
    assert other.Keys == {k};
  }

  /** Other data feed the digest the same bytes. */
  ghost predicate Confused(data: Options) {
    exists other: Options :: other != data && DigestInput(other) == DigestInput(data)
  }

  lemma OneConfusedIff(k: string, v: string)
    ensures Confused(map[k := v]) <==> '\0' in k || '\0' in v
  {
    DigestOfOne(map[k := v], k);
    EntryConfusedIff(k, v);
    if '\0' in k || '\0' in v {
      var k': string, v': string :| (k' != k || v' != v) && Entry(k', v') == Entry(k, v);
      var other: Options := map[k' := v'];
      DigestOfOne(other, k');
      assert other.Keys == {k'} && other[k'] == v';
      assert other != map[k := v];
    } else {
      forall other: Options | DigestInput(other) == Entry(k, v) ensures other == map[k := v] {
        NulFreeDetermined(k, v, other);
      }
    }
  }

  lemma SeveralKeys(keys: set<string>, j: string, k: string)
    requires j in keys && k in keys && j != k
    ensures |keys| >= 2
  {
    assert |keys - {j}| == |keys| - 1;
    assert k in keys - {j};
  }

  lemma SeveralConfused(data: Options, j: string, k: string, v: string)
    requires j in data && k in data && j != k && DigestInput(data) == Entry(k, v)
    ensures |data.Keys| >= 2 && Confused(data)
  {
    SeveralKeys(data.Keys, j, k);
    var one: Options := map[k := v];
    DigestOfOne(one, k);
    assert j !in one;
    assert one != data && DigestInput(one) == DigestInput(data);
  }

  /** Which data share their bytes with other data: exactly those with several entries
      or with a NUL in the one they have. */
  lemma DigestConfusedIff(data: Options)
    ensures Confused(data) <==> |data| >= 2 || !NulFree(data)
  {
    if data == map[] {
      DigestOfNone(data);
      forall other: Options | DigestInput(other) == "" ensures other == data {
        DigestOfNone(other);
      }
    } else {
      var k, v := DigestAsOne(data);
      if data.Keys == {k} {
        assert |data.Keys| == 1 && data == map[k := v];
        OneConfusedIff(k, v);
      } else {
        var j :| j in data && j != k;
        SeveralConfused(data, j, k, v);
      }
    }
  }

  // ---------------------------------------------------------------- the restart decision

  lemma {:induction false} FieldsAgree(keys: seq<string>, a: Options, b: Options)
    requires forall i :: 0 <= i < |keys| ==> keys[i] in a && keys[i] in b && a[keys[i]] == b[keys[i]]
    ensures Fields(keys, a) == Fields(keys, b)
    decreases |keys|
  {
    if keys != [] {
      FieldsAgree(keys[1..], a, b);
    }
  }

  /** The bytes around one entry. */
  lemma BytesAround(before: seq<string>, key: string, after: seq<string>, data: Options)
    requires forall i :: 0 <= i < |before| ==> before[i] in data
    requires forall i :: 0 <= i < |after| ==> after[i] in data
    requires key in data
    ensures Terminate(Fields(before + [key] + after, data), '\0')
            == (Terminate(Fields(before, data), '\0') + key + ['\0'])
               + (data[key] + (['\0'] + Terminate(Fields(after, data), '\0')))
  {
    FieldsAppend(before + [key], after, data);
    TerminateAppend(Fields(before + [key], data), Fields(after, data), '\0');
    EntryBytes(before, key, data);
    var a, z := Terminate(Fields(before, data), '\0'), Terminate(Fields(after, data), '\0');
    var k, v := key + ['\0'], data[key];
    Assoc(k, v, ['\0']);
    Assoc(a, k, v + ['\0']);
    Assoc(a, key, ['\0']);
    Assoc(a + k, v + ['\0'], z);
    Assoc(v, ['\0'], z);
  }

  lemma EntryAlone(before: seq<string>, key: string, after: seq<string>, d1: Options, d2: Options)
    requires key in d1 && key in d2
    requires forall i :: 0 <= i < |before| ==> before[i] in d1 && before[i] in d2 && d1[before[i]] == d2[before[i]]
    requires forall i :: 0 <= i < |after| ==> after[i] in d1 && after[i] in d2 && d1[after[i]] == d2[after[i]]
    requires Terminate(Fields(before + [key] + after, d1), '\0') == Terminate(Fields(before + [key] + after, d2), '\0')
    ensures d1[key] == d2[key]
  {
    FieldsAgree(before, d1, d2);
    FieldsAgree(after, d1, d2);
    BytesAround(before, key, after, d1);
    BytesAround(before, key, after, d2);
    var head := Terminate(Fields(before, d1), '\0') + key + ['\0'];
    var tail := ['\0'] + Terminate(Fields(after, d1), '\0');
    SamePrefix(d1[key] + tail, d2[key] + tail, head);
    SameSuffix(d1[key], d2[key], tail);
  }

  /** An ascending list holds a key once. */
  lemma SplitAtKey(keys: seq<string>, key: string) returns (i: nat)
    requires Ascending(keys) && key in keys
    ensures i < |keys| && keys == keys[..i] + [key] + keys[i + 1..]
    ensures key !in keys[..i] && key !in keys[i + 1..]
  {
    i :| 0 <= i < |keys| && keys[i] == key;
    BelowIrreflexive(key);
    assert forall j :: 0 <= j < i ==> Below(keys[j], key);
    assert forall j :: i < j < |keys| ==> Below(key, keys[j]);
  }

  lemma AgreeElsewhere(other: Options, key: string, v1: string, v2: string, keys: seq<string>)
    requires key !in keys && Elements(keys) <= other[key := v1].Keys
    ensures forall j :: 0 <= j < |keys| ==>
              keys[j] in other[key := v1] && keys[j] in other[key := v2]
              && other[key := v1][keys[j]] == other[key := v2][keys[j]]
  {
  }

  /** With the other ConfigMap entries fixed, whatever they hold, the digest input
      changes exactly when this entry's value does. */
  lemma DigestTracksEntry(other: Options, key: string, v1: string, v2: string)
    ensures DigestInput(other[key := v1]) == DigestInput(other[key := v2]) <==> v1 == v2
  {
    var d1, d2 := other[key := v1], other[key := v2];
    assert d1.Keys == d2.Keys;
    var keys := SortedKeys(d1);
    assert SortedKeys(d2) == keys;
    assert key in Elements(keys);
    var i := SplitAtKey(keys, key);
    var before, after := keys[..i], keys[i + 1..];
    AgreeElsewhere(other, key, v1, v2, before);
    AgreeElsewhere(other, key, v1, v2, after);
    if DigestInput(d1) == DigestInput(d2) {
      EntryAlone(before, key, after, d1, d2);
    }
  }

  /** Pods are restarted exactly when the effective options change: with the other
      ConfigMap entries fixed, two specifications feed the same bytes to the digest
      if and only if they merge to the same options. */
  lemma RestartIffOptionsChange(other: Options, defaults: Options,
                                base1: Options, overrides1: map<string, IntOrString>,
                                base2: Options, overrides2: map<string, IntOrString>)
    requires Clean(Merge(defaults, base1, overrides1)) && Clean(Merge(defaults, base2, overrides2))
    ensures DigestInput(other["my.cnf" := Rendered(Merge(defaults, base1, overrides1))])
            == DigestInput(other["my.cnf" := Rendered(Merge(defaults, base2, overrides2))])
            <==> Merge(defaults, base1, overrides1) == Merge(defaults, base2, overrides2)
  {
    var m1, m2 := Merge(defaults, base1, overrides1), Merge(defaults, base2, overrides2);
    DigestTracksEntry(other, "my.cnf", Rendered(m1), Rendered(m2));
    RenderInjective(m1, m2);
  }

  /** What a reader of the file finds: an override as it was given, integers read back as
      numbers of 64 bits; then the base or default value; then a bare boolean flag. */
  lemma FileReadsBack(defaults: Options, base: Options, overrides: map<string, IntOrString>, k: string)
    requires Clean(Merge(defaults, base, overrides))
    ensures var found := Read(Rendered(Merge(defaults, base, overrides)));
            var source := if base == map[] then defaults else base;
            && (k in found <==> k in overrides || k in source || k == "skip-name-resolve")
            && (k in overrides ==>
                  match overrides[k]
                  case Int(i) => Decimal.Atoi(found[k]) == Decimal.Clamp(i)
                  case Str(s) => found[k] == s)
            && (k in found && k !in overrides ==> found[k] == if k in source then source[k] else "")
  {
    RenderRoundTrip(Merge(defaults, base, overrides));
    MergePrecedence(defaults, base, overrides, k);
    if k in overrides && overrides[k].Int? {
      Decimal.AtoiItoa(overrides[k].i);
    }
  }

  /** Every file starts with its section and ends with the include directive. */
  lemma FileFrame(m: Options)
    ensures Rendered(m) == "[mysqld]\n" + Terminate(Bodies(SortedKeys(m), m), '\n') + "!includedir /etc/mysql/conf.d\n"
  {
    var bodies := Bodies(SortedKeys(m), m);
    TerminateAppend([HEADER] + bodies, [INCLUDE], '\n');
    TerminateAppend([HEADER], bodies, '\n');
    TerminateOne(HEADER);
    TerminateOne(INCLUDE);
  }

  /** Exact-key precedence of the merge. */
  lemma MergePrecedence(defaults: Options, base: Options, overrides: map<string, IntOrString>, k: string)
    ensures var m := Merge(defaults, base, overrides);
            var source := if base == map[] then defaults else base;
            && (k in m <==> k in overrides || k in source || k in BOOLEAN_FLAGS)
            && (k in m ==> m[k] == if k in overrides
                                   then match overrides[k] case Int(i) => Decimal.Itoa(i) case Str(s) => s
                                   else if k in source then source[k] else "")
  {
  }
}
