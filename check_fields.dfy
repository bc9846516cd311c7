/**
 The field-report script `check-fields.py`: given the parsed JSON document it
 lists the fields of the first project, except `scenes`, and, when that project
 has a truthy `scenes` value, the fields of its first scene, each as
 `  - <key>: <type name>`, keys in ascending order.

 `Output` is the reference definition of everything the script prints and of
 the exception, if any, that ends it. `Report` is the script itself, emitting
 one line at a time; its contract is that it produces `Output(doc)`. The lemmas
 after it state what the report contains.
 */
module CheckFields {
  import opened Json
  import opened StrOrder

  const ProjectHeader := "Available project fields:"
  const SceneHeader := "Available scene fields:"

  /** What a run leaves behind: the lines printed, and the exception that
      stopped it, if one did. Lines printed before an exception stay printed. */
  datatype Outcome = Outcome(lines: seq<string>, fault: Option<Fault>)

  /** One listing line: `f'  - {k}: {type(v).__name__}'`. */
  function FieldLine(k: string, v: Json): string
  {
    "  - " + k + ": " + TypeLabel(v)
  }

  /** The listing lines of the keys `ks` of `m`, one per key, in the order of `ks`. */
  function Listing(m: map<string, Json>, ks: seq<string>): seq<string>
    requires forall k :: k in ks ==> k in m
  {
    if ks == [] then [] else [FieldLine(ks[0], m[ks[0]])] + Listing(m, ks[1..])
  }

  /** Line `i` of a listing is the line of key `ks[i]`. */
  lemma {:induction false} ListingAt(m: map<string, Json>, ks: seq<string>)
    requires forall k :: k in ks ==> k in m
    ensures |Listing(m, ks)| == |ks|
    ensures forall i {:trigger Listing(m, ks)[i]} :: 0 <= i < |ks| ==>
      Listing(m, ks)[i] == FieldLine(ks[i], m[ks[i]])
  {
    if ks != [] {
      ListingAt(m, ks[1..]);
      var all, rest := Listing(m, ks), Listing(m, ks[1..]);
      assert all == [FieldLine(ks[0], m[ks[0]])] + rest;
      forall i | 0 <= i < |ks| ensures all[i] == FieldLine(ks[i], m[ks[i]]) {
        if i > 0 {
          assert all[i] == rest[i - 1];
          assert ks[1..][i - 1] == ks[i];
        }
      }
    }
  }

  /** A listing depends only on the values of the keys it lists. */
  lemma {:induction false} ListingAgree(m: map<string, Json>, m': map<string, Json>, ks: seq<string>)
    requires forall k :: k in ks ==> k in m && k in m' && m[k] == m'[k]
    ensures Listing(m, ks) == Listing(m', ks)
  {
    if ks != [] {
      ListingAgree(m, m', ks[1..]);
    }
  }

  /** Listing one more key appends that key's line. */
  lemma {:induction false} ListingSnoc(m: map<string, Json>, ks: seq<string>, k: string)
    requires forall j :: j in ks ==> j in m
    requires k in m
    ensures Listing(m, ks + [k]) == Listing(m, ks) + [FieldLine(k, m[k])]
  {
    if ks == [] {
      assert [] + [k] == [k];
    } else {
      assert (ks + [k])[1..] == ks[1..] + [k];
      ListingSnoc(m, ks[1..], k);
    }
  }

  /** The keys the project loop prints: `sorted(p.keys())` without `scenes`. */
  function ProjectKeys(m: map<string, Json>): (ks: seq<string>)
    ensures forall k :: k in ks ==> k in m
  {
    SortedSetMembers(m.Keys);
    WithoutMembers(SortedSet(m.Keys), "scenes");
    Without(SortedSet(m.Keys), "scenes")
  }

  /** The keys the scene loop prints: `sorted(scene.keys())`. */
  function SceneKeys(m: map<string, Json>): (ks: seq<string>)
    ensures forall k :: k in ks ==> k in m
  {
    SortedSetMembers(m.Keys);
    SortedSet(m.Keys)
  }

  /** The project section lists every key but `scenes`, each once, ascending. */
  lemma ProjectKeysSpec(m: map<string, Json>)
    ensures StrictlySorted(ProjectKeys(m))
    ensures forall k :: k in ProjectKeys(m) <==> k in m && k != "scenes"
    ensures |ProjectKeys(m)| == |m.Keys - {"scenes"}|
  {
    var ks := ProjectKeys(m);
    SortedSetMembers(m.Keys);
    SortedSetSorted(m.Keys);
    WithoutMembers(SortedSet(m.Keys), "scenes");
    WithoutSorted(SortedSet(m.Keys), "scenes");
    SortedSetUnique(m.Keys - {"scenes"}, ks);
    SortedSetMembers(m.Keys - {"scenes"});
  }

  /** The scene section lists every key, each once, ascending. */
  lemma SceneKeysSpec(m: map<string, Json>)
    ensures StrictlySorted(SceneKeys(m))
    ensures forall k :: k in SceneKeys(m) <==> k in m
    ensures |SceneKeys(m)| == |m|
  {
    SortedSetMembers(m.Keys);
    SortedSetSorted(m.Keys);
  }

  /** `pre`, followed by what `o` prints, ending as `o` ends. */
  function Then(pre: seq<string>, o: Outcome): Outcome
  {
    Outcome(pre + o.lines, o.fault)
  }

  /** Everything the script prints for `doc`, and how it ends. */
  function Output(doc: Json): (o: Outcome)
    ensures o.lines != [] ==> o.lines[0] == ProjectHeader
  {
    match Subscript(doc, "projects")
    case Err(e) => Outcome([], Some(e))
    case Ok(projects) =>
      if !Truthy(projects) then Outcome([], None)
      else match First(projects)
        case Err(e) => Outcome([], Some(e))
        case Ok(p) => Then([ProjectHeader], ProjectReport(p))
  }

  /** From `p.keys()` on: what is printed after the project header. */
  function ProjectReport(p: Json): Outcome
  {
    match Fields(p)
    case Err(e) => Outcome([], Some(e))
    case Ok(m) => Then(Listing(m, ProjectKeys(m)), SceneTail(m))
  }

  /** The test `'scenes' in p and p['scenes']` and what it guards. */
  function SceneTail(m: map<string, Json>): Outcome
  {
    if "scenes" in m && Truthy(m["scenes"]) then SceneReport(m["scenes"]) else Outcome([], None)
  }

  /** The scene heading, then the first scene's lines, or the exception
      `p['scenes'][0]` or `scene.keys()` raises. */
  function SceneReport(scenes: Json): Outcome
  {
    match First(scenes)
    case Err(e) => Outcome(["", SceneHeader], Some(e))
    case Ok(scene) =>
      match Fields(scene)
      case Err(e) => Outcome(["", SceneHeader], Some(e))
      case Ok(sm) => Outcome(["", SceneHeader] + Listing(sm, SceneKeys(sm)), None)
  }

  /** The script. The truthiness test on `projects` guards all of it; the
      loop over the project's keys is `ProjectLines` and everything under the
      test on the project's `scenes` is `SceneBlock`. */
  method Report(doc: Json) returns (out: seq<string>, fault: Option<Fault>)
    ensures Outcome(out, fault) == Output(doc)
  {
    out, fault := [], None;
    var projects := Subscript(doc, "projects");
    if projects.Err? {
      fault := Some(projects.error);
      return;
    }
    if !Truthy(projects.value) {
      return;
    }
    var first := First(projects.value);
    if first.Err? {
      fault := Some(first.error);
      return;
    }
    out := [ProjectHeader];
    var fields := Fields(first.value);
    if fields.Err? {
      fault := Some(fields.error);
      return;
    }
    var p := fields.value;
    SortedSetMembers(p.Keys);
    var projectLines := ProjectLines(p, SortedSet(p.Keys));
    var sceneLines := [];
    if "scenes" in p && Truthy(p["scenes"]) {
      sceneLines, fault := SceneBlock(p["scenes"]);
    }
    out := out + (projectLines + sceneLines);
  }

  /** Everything under `if 'scenes' in p and p['scenes']`. */
  method SceneBlock(scenes: Json) returns (out: seq<string>, fault: Option<Fault>)
    ensures Outcome(out, fault) == SceneReport(scenes)
  {
    out, fault := ["", SceneHeader], None;
    var first := First(scenes);
    if first.Err? {
      fault := Some(first.error);
      return;
    }
    var fields := Fields(first.value);
    if fields.Err? {
      fault := Some(fields.error);
      return;
    }
    var scene := fields.value;
    SortedSetMembers(scene.Keys);
    var sceneLines := SceneLines(scene, SortedSet(scene.Keys));
    out := out + sceneLines;
  }

  /** The loop `for k in keys: if k != 'scenes': print(...)`, run by the
      script on `keys = sorted(p.keys())`. */
  method ProjectLines(p: map<string, Json>, keys: seq<string>) returns (lines: seq<string>)
    requires forall k :: k in keys ==> k in p
    ensures lines == Listing(p, Without(keys, "scenes"))
  {
    lines := [];
    WithoutMembers([], "scenes");
    var i := 0;
    while i < |keys|
      invariant 0 <= i <= |keys|
      invariant forall k :: k in Without(keys[..i], "scenes") ==> k in p
      invariant lines == Listing(p, Without(keys[..i], "scenes"))
    {
      var k := keys[i];
      assert keys[..i + 1] == keys[..i] + [k];
      WithoutSnoc(keys[..i], k, "scenes");
      WithoutMembers(keys[..i + 1], "scenes");
      if k != "scenes" {
        ListingSnoc(p, Without(keys[..i], "scenes"), k);
        lines := lines + [FieldLine(k, p[k])];
      }
      i := i + 1;
    }
    assert keys[..i] == keys;
  }

  /** The loop `for k in keys: print(...)`, run by the script on
      `keys = sorted(scene.keys())`. */
  method SceneLines(scene: map<string, Json>, keys: seq<string>) returns (lines: seq<string>)
    requires forall k :: k in keys ==> k in scene
    ensures lines == Listing(scene, keys)
  {
    lines := [];
    var j := 0;
    while j < |keys|
      invariant 0 <= j <= |keys|
      invariant lines == Listing(scene, keys[..j])
    {
      var k := keys[j];
      assert keys[..j + 1] == keys[..j] + [k];
      ListingSnoc(scene, keys[..j], k);
      lines := lines + [FieldLine(k, scene[k])];
      j := j + 1;
    }
    assert keys[..j] == keys;
  }

  /** A document that is not a dict, or a dict without `projects`, stops the
      script at its first subscript: nothing is printed and `data['projects']`
      raises (TypeError, or KeyError on a dict). */
  lemma MissingProjectsFails(doc: Json)
    requires !doc.JObj? || "projects" !in doc.fields
    ensures Output(doc).lines == []
    ensures Output(doc).fault == Some(if doc.JObj? then KeyError else TypeError)
  {
  }

  /** A falsy `projects` (empty list, empty dict, `null`, `0`, `""`, `false`)
      prints nothing and ends normally. */
  lemma FalsyProjectsSilent(doc: Json)
    requires doc.JObj? && "projects" in doc.fields
    requires !Truthy(doc.fields["projects"])
    ensures Output(doc) == Outcome([], None)
  {
  }

  /** Something is printed exactly when `projects` is truthy and can be
      indexed by 0 (a non-empty list or str), and then the first line is the
      project header. */
  lemma HeaderFirst(doc: Json)
    ensures Output(doc).lines != [] <==>
      && doc.JObj? && "projects" in doc.fields
      && Truthy(doc.fields["projects"])
      && (doc.fields["projects"].JArr? || doc.fields["projects"].JStr?)
    ensures Output(doc).lines != [] ==> Output(doc).lines[0] == ProjectHeader
  {
  }

  /** The first project of a document whose `projects` is a non-empty list. */
  predicate FirstProjectIs(doc: Json, m: map<string, Json>)
  {
    && doc.JObj? && "projects" in doc.fields
    && doc.fields["projects"].JArr?
    && |doc.fields["projects"].elems| > 0
    && doc.fields["projects"].elems[0] == JObj(m)
  }

  /** With a dict as first project, the report is the header, the project
      lines and whatever the `scenes` test adds. */
  lemma OutputOfProject(doc: Json, m: map<string, Json>)
    requires FirstProjectIs(doc, m)
    ensures Output(doc).lines == [ProjectHeader] + (Listing(m, ProjectKeys(m)) + SceneTail(m).lines)
    ensures Output(doc).fault == SceneTail(m).fault
  {
    assert Output(doc) == Then([ProjectHeader], ProjectReport(JObj(m)));
  }

  /** Line `1 + i` of `[h] + (body + tail)` is line `i` of `body`. This and
      the next lemma are stated on plain sequences, apart from the report,
      so that the lemmas using them stay cheap for the solver. */
  lemma HeaderThenAt(h: string, body: seq<string>, tail: seq<string>, i: int)
    requires 0 <= i < |body|
    ensures ([h] + (body + tail))[1 + i] == body[i]
  {
  }

  /** Line `1 + |body| + i` of `[h] + (body + tail)` is line `i` of `tail`. */
  lemma HeaderThenTail(h: string, body: seq<string>, tail: seq<string>, i: int)
    requires 0 <= i < |tail|
    ensures ([h] + (body + tail))[1 + |body| + i] == tail[i]
  {
  }

  /** After the header come the lines of the project's keys: every key but
      `scenes` exactly once, in strictly ascending order, each line giving the
      key and the type name of its value. */
  lemma ProjectSection(doc: Json, m: map<string, Json>)
    requires FirstProjectIs(doc, m)
    ensures var ks, lines := ProjectKeys(m), Output(doc).lines;
      && |lines| >= 1 + |ks|
      && lines[0] == ProjectHeader
      && (forall i :: 0 <= i < |ks| ==> lines[1 + i] == FieldLine(ks[i], m[ks[i]]))
      && StrictlySorted(ks)
      && (forall k :: k in ks <==> k in m && k != "scenes")
      && |ks| == |m.Keys - {"scenes"}|
  {
    var ks := ProjectKeys(m);
    OutputOfProject(doc, m);
    ProjectKeysSpec(m);
    ListingAt(m, ks);
    var listing, tail := Listing(m, ks), SceneTail(m).lines;
    assert Output(doc).lines == [ProjectHeader] + (listing + tail);
    forall i | 0 <= i < |ks| ensures Output(doc).lines[1 + i] == FieldLine(ks[i], m[ks[i]]) {
      HeaderThenAt(ProjectHeader, listing, tail, i);
    }
  }

  /** Whatever the first scene is, the scene report opens with the empty
      line and the scene header. */
  lemma SceneReportOpens(scenes: Json)
    ensures |SceneReport(scenes).lines| >= 2
    ensures SceneReport(scenes).lines[0] == "" && SceneReport(scenes).lines[1] == SceneHeader
  {
  }

  /** The scene section appears exactly when the project has a truthy
      `scenes`; it opens with an empty line and the scene header, and without
      it the report ends after the project lines with no exception. */
  lemma SceneSectionIff(doc: Json, m: map<string, Json>)
    requires FirstProjectIs(doc, m)
    ensures var n, out := |ProjectKeys(m)|, Output(doc);
      && (|out.lines| > 1 + n <==> "scenes" in m && Truthy(m["scenes"]))
      && (|out.lines| > 1 + n ==> |out.lines| >= 3 + n && out.lines[1 + n] == "" && out.lines[2 + n] == SceneHeader)
      && (|out.lines| == 1 + n ==> out.fault == None)
  {
    OutputOfProject(doc, m);
    ListingAt(m, ProjectKeys(m));
    var listing, tail := Listing(m, ProjectKeys(m)), SceneTail(m).lines;
    assert Output(doc).lines == [ProjectHeader] + (listing + tail);
    if "scenes" in m && Truthy(m["scenes"]) {
      SceneReportOpens(m["scenes"]);
      HeaderThenTail(ProjectHeader, listing, tail, 0);
      HeaderThenTail(ProjectHeader, listing, tail, 1);
    }
  }

  /** With a first scene that is a dict, the report is the project section,
      the scene heading and one line per scene key, all keys ascending and none
      left out, and the script ends normally. */
  lemma SceneSection(doc: Json, m: map<string, Json>, sm: map<string, Json>)
    requires FirstProjectIs(doc, m)
    requires "scenes" in m && m["scenes"].JArr? && |m["scenes"].elems| > 0
    requires m["scenes"].elems[0] == JObj(sm)
    ensures var out := Output(doc);
      && out.fault == None
      && out.lines == [ProjectHeader] + (Listing(m, ProjectKeys(m)) + (["", SceneHeader] + Listing(sm, SceneKeys(sm))))
      && StrictlySorted(SceneKeys(sm))
      && (forall k :: k in SceneKeys(sm) <==> k in sm)
  {
    OutputOfProject(doc, m);
    assert SceneTail(m) == Outcome(["", SceneHeader] + Listing(sm, SceneKeys(sm)), None);
    SceneKeysSpec(sm);
  }

  /** The `scenes` exclusion is for the project only: a scene key named
      `scenes` is listed, with the type name of its value. */
  lemma SceneKeyNamedScenesListed(sm: map<string, Json>)
    requires "scenes" in sm
    ensures "scenes" in SceneKeys(sm)
    ensures forall i :: 0 <= i < |SceneKeys(sm)| && SceneKeys(sm)[i] == "scenes" ==>
      i < |Listing(sm, SceneKeys(sm))| && Listing(sm, SceneKeys(sm))[i] == FieldLine("scenes", sm["scenes"])
  {
    var sk := SceneKeys(sm);
    SceneKeysSpec(sm);
    ListingAt(sm, sk);
  }

  /** The part of a document the script can look at: `projects` alone, cut
      to its first element, whose `scenes`, when a non-empty list, is cut to
      its first element. */
  function Trim(doc: Json): Json
  {
    match doc
    case JObj(d) =>
      if "projects" in d then JObj(map["projects" := TrimProjects(d["projects"])]) else JObj(map[])
    case _ => doc
  }

  function TrimProjects(ps: Json): Json
  {
    match ps
    case JArr(a) => if |a| == 0 then ps else JArr([TrimProject(a[0])])
    case _ => ps
  }

  function TrimProject(p: Json): Json
  {
    match p
    case JObj(m) =>
      if "scenes" in m && m["scenes"].JArr? && |m["scenes"].elems| > 0
      then JObj(m["scenes" := JArr([m["scenes"].elems[0]])])
      else p
    case _ => p
  }

  /** Replacing the value of `scenes` leaves the project lines unchanged. */
  lemma ProjectListingIgnoresScenes(m: map<string, Json>, v: Json)
    requires "scenes" in m
    ensures Listing(m["scenes" := v], ProjectKeys(m["scenes" := v])) == Listing(m, ProjectKeys(m))
  {
    var m' := m["scenes" := v];
    assert m'.Keys == m.Keys;
    assert ProjectKeys(m') == ProjectKeys(m);
    ProjectKeysSpec(m);
    ListingAgree(m, m', ProjectKeys(m));
  }

  /** The scene report depends on `scenes` only through `scenes[0]`. */
  lemma SceneReportOfFirst(scenes: Json, scenes': Json)
    requires First(scenes) == First(scenes')
    ensures SceneReport(scenes) == SceneReport(scenes')
  {
  }

  /** Cutting `scenes` to its first element changes nothing the script prints. */
  lemma TrimProjectReport(p: Json)
    ensures ProjectReport(TrimProject(p)) == ProjectReport(p)
  {
    if p.JObj? {
      var m := p.fields;
      if "scenes" in m && m["scenes"].JArr? && |m["scenes"].elems| > 0 {
        var scenes := m["scenes"];
        var scenes' := JArr([scenes.elems[0]]);
        var m' := m["scenes" := scenes'];
        assert TrimProject(p) == JObj(m');
        ProjectListingIgnoresScenes(m, scenes');
        SceneReportOfFirst(scenes', scenes);
        assert SceneTail(m') == SceneTail(m);
      }
    }
  }

  /** Only `projects[0]` and `scenes[0]` are inspected: other top-level keys,
      later projects and later scenes never change the report. */
  lemma OnlyFirstMatters(doc: Json)
    ensures Output(Trim(doc)) == Output(doc)
  {
    if doc.JObj? && "projects" in doc.fields {
      var ps := doc.fields["projects"];
      if ps.JArr? && |ps.elems| > 0 {
        TrimProjectReport(ps.elems[0]);
      }
    }
  }

  /** The same, for two documents that differ only after the first project. */
  lemma LaterProjectsIgnored(d: map<string, Json>, p: Json, rest1: seq<Json>, rest2: seq<Json>)
    ensures Output(JObj(d["projects" := JArr([p] + rest1)]))
         == Output(JObj(d["projects" := JArr([p] + rest2)]))
  {
    OnlyFirstMatters(JObj(d["projects" := JArr([p] + rest1)]));
    OnlyFirstMatters(JObj(d["projects" := JArr([p] + rest2)]));
  }

  /** The same, for two first projects that differ only after the first scene. */
  lemma LaterScenesIgnored(m: map<string, Json>, s: Json, rest1: seq<Json>, rest2: seq<Json>)
    ensures ProjectReport(JObj(m["scenes" := JArr([s] + rest1)]))
         == ProjectReport(JObj(m["scenes" := JArr([s] + rest2)]))
  {
    var p1, p2 := JObj(m["scenes" := JArr([s] + rest1)]), JObj(m["scenes" := JArr([s] + rest2)]);
    TrimProjectReport(p1);
    TrimProjectReport(p2);
    assert m["scenes" := JArr([s] + rest1)]["scenes" := JArr([s])]
        == m["scenes" := JArr([s] + rest2)]["scenes" := JArr([s])];
    assert TrimProject(p1) == TrimProject(p2);
  }

  /** Two keys listed in the given order. */
  lemma ListingPair(m: map<string, Json>, a: string, b: string)
    requires a in m && b in m
    ensures Listing(m, [a, b]) == [FieldLine(a, m[a]), FieldLine(b, m[b])]
  {
    assert [a, b][1..] == [b];
    assert [b][1..] == [];
    assert Listing(m, [b]) == [FieldLine(b, m[b])] + Listing(m, []);
    assert Listing(m, [a, b]) == [FieldLine(a, m[a])] + Listing(m, [b]);
  }

  /** The listing lines the two examples below print. */
  lemma ExampleLines()
    ensures FieldLine("id", JInt(1)) == "  - id: int"
    ensures FieldLine("name", JStr("A")) == "  - name: str"
    ensures FieldLine("duration", JFloat(5.0)) == "  - duration: float"
    ensures FieldLine("title", JStr("Intro")) == "  - title: str"
  {
  }

  /** The project keys printed for the first example, `scenes` dropped. */
  lemma ExampleProjectKeys()
    ensures ProjectKeys(map["name" := JStr("A"), "id" := JInt(1), "scenes" := JArr([])]) == ["id", "name"]
  {
    var m := map["name" := JStr("A"), "id" := JInt(1), "scenes" := JArr([])];
    assert Less("id", "name");
    assert m.Keys - {"scenes"} == {"id", "name"};
    ProjectKeysSpec(m);
    SortedSetUnique(m.Keys - {"scenes"}, ProjectKeys(m));
    SortedSetUnique(m.Keys - {"scenes"}, ["id", "name"]);
  }

  /** The project and scene keys printed for the second example. */
  lemma ExampleSceneKeys(scenes: Json)
    ensures ProjectKeys(map["id" := JInt(1), "scenes" := scenes]) == ["id"]
    ensures SceneKeys(map["duration" := JFloat(5.0), "title" := JStr("Intro")]) == ["duration", "title"]
  {
    var m := map["id" := JInt(1), "scenes" := scenes];
    var sm := map["duration" := JFloat(5.0), "title" := JStr("Intro")];
    assert m.Keys - {"scenes"} == {"id"};
    ProjectKeysSpec(m);
    SortedSetUnique(m.Keys - {"scenes"}, ProjectKeys(m));
    SortedSetUnique(m.Keys - {"scenes"}, ["id"]);
    assert Less("duration", "title");
    SortedSetUnique(sm.Keys, ["duration", "title"]);
  }

  /** The output of a first project with two listed keys and a falsy `scenes`. */
  lemma TwoKeysNoScenes(doc: Json, m: map<string, Json>, a: string, b: string)
    requires FirstProjectIs(doc, m)
    requires ProjectKeys(m) == [a, b]
    requires "scenes" in m && !Truthy(m["scenes"])
    ensures Output(doc) == Outcome([ProjectHeader, FieldLine(a, m[a]), FieldLine(b, m[b])], None)
  {
    OutputOfProject(doc, m);
    ListingPair(m, a, b);
  }

  /** The output of a first project with one listed key and a first scene
      with two keys. */
  lemma OneKeyTwoSceneKeys(doc: Json, m: map<string, Json>, sm: map<string, Json>, a: string, b: string, c: string)
    requires FirstProjectIs(doc, m)
    requires "scenes" in m && m["scenes"].JArr? && |m["scenes"].elems| > 0
    requires m["scenes"].elems[0] == JObj(sm)
    requires ProjectKeys(m) == [a] && SceneKeys(sm) == [b, c]
    ensures Output(doc) == Outcome([ProjectHeader, FieldLine(a, m[a]), "", SceneHeader, FieldLine(b, sm[b]), FieldLine(c, sm[c])], None)
  {
    var first, rest := [FieldLine(a, m[a])], [FieldLine(b, sm[b]), FieldLine(c, sm[c])];
    assert Listing(m, [a]) == first by {
      assert [a][1..] == [];
    }
    ListingPair(sm, b, c);
    SceneSection(doc, m, sm);
    assert Output(doc).lines == [ProjectHeader] + (first + (["", SceneHeader] + rest));
    Flatten(ProjectHeader, FieldLine(a, m[a]), "", SceneHeader, FieldLine(b, sm[b]), FieldLine(c, sm[c]));
  }

  /** Six lines, regrouped; stated apart from the report to keep the example
      proofs cheap for the solver. */
  lemma Flatten(h: string, x: string, e: string, sh: string, y: string, z: string)
    ensures [h] + ([x] + ([e, sh] + [y, z])) == [h, x, e, sh, y, z]
  {
  }

  /** `{"projects": [{"name": "A", "id": 1, "scenes": []}]}`: the project
      lines only, `scenes` itself not listed, no scene section. */
  lemma ExampleEmptyScenes()
    ensures Output(JObj(map["projects" := JArr([JObj(map["name" := JStr("A"), "id" := JInt(1), "scenes" := JArr([])])])]))
         == Outcome([ProjectHeader, "  - id: int", "  - name: str"], None)
  {
    var m := map["name" := JStr("A"), "id" := JInt(1), "scenes" := JArr([])];
    var doc := JObj(map["projects" := JArr([JObj(m)])]);
    ExampleProjectKeys();
    ExampleLines();
    assert FirstProjectIs(doc, m);
    TwoKeysNoScenes(doc, m, "id", "name");
  }

  /** `{"projects": [{"id": 1, "scenes": [{"duration": 5.0, "title": "Intro"}]}]}`:
      both sections. */
  lemma ExampleWithScene()
    ensures Output(JObj(map["projects" := JArr([JObj(map["id" := JInt(1),
              "scenes" := JArr([JObj(map["duration" := JFloat(5.0), "title" := JStr("Intro")])])])])]))
         == Outcome([ProjectHeader, "  - id: int", "", SceneHeader,
                     "  - duration: float", "  - title: str"], None)
  {
    var sm := map["duration" := JFloat(5.0), "title" := JStr("Intro")];
    var m := map["id" := JInt(1), "scenes" := JArr([JObj(sm)])];
    var doc := JObj(map["projects" := JArr([JObj(m)])]);
    ExampleSceneKeys(JArr([JObj(sm)]));
    ExampleLines();
    assert FirstProjectIs(doc, m);
    OneKeyTwoSceneKeys(doc, m, sm, "id", "duration", "title");
  }
}
