/** Study bundles: the validation that publishing requires, and what it implies about
    the balance of the experiment. */
module Studies {
  import opened Common
  import opened Trees
  import opened MenuGrammar
  import opened Menus
  import opened Sessions

  const MAX_BUNDLE_BYTES: nat := 0x80_0000
  const BANDS: seq<string> := ["easy", "medium", "hard"]

  datatype Variant = Variant(id: Id, name: string, tree: string)

  datatype Config = Config(schemaVersion: int, slug: string, title: string, instructions: string, tasksPerSession: int,
                           variants: seq<Variant>, tasks: seq<Task>, panels: seq<seq<Id>>)

  /** `size` is the length of the bundle's canonical encoding. */
  datatype Bundle = Bundle(config: Config, trees: map<string, string>, size: nat)

  /** The first stage of the validation that a bundle fails. */
  datatype Stage = Header | Variants | UnusedTrees | Tasks | Panels | Exposures | Encoding

  datatype Validated = Snapshot(trees: map<Id, seq<Node>>) | Refused(stage: Stage)

  // -------------------------------------------------------------- what is asked

  predicate Blank(s: string)
  {
    forall i :: 0 <= i < |s| ==> ServerSpace(s[i])
  }

  predicate Named(s: string, limit: nat)
  {
    !Blank(s) && Utf8Length(s) <= limit
  }

  predicate HeaderOk(c: Config)
  {
    && c.schemaVersion == 1 && Identifier(c.slug) && Named(c.title, 240) && Utf8Length(c.instructions) <= 8000
    && 3 <= c.tasksPerSession <= MAX_TASKS_PER_SESSION && c.tasksPerSession % 3 == 0
    && 2 <= |c.variants| <= 10 && c.tasksPerSession <= |c.tasks| <= 200 && 1 <= |c.panels| <= 1000
  }

  /** A sibling Markdown file. */
  predicate SafeTreeName(name: string)
  {
    && Utf8Length(name) <= 128 && '/' !in name && '\\' !in name && '\0' !in name
    && 3 <= |name| && name[|name| - 3..] == ".md" && name[0] != '.'
  }

  ghost predicate VariantOk(b: Bundle, i: nat)
    requires i < |b.config.variants|
  {
    var v := b.config.variants[i];
    && Identifier(v.id) && (forall j :: 0 <= j < i ==> b.config.variants[j].id != v.id)
    && Named(v.name, 240) && SafeTreeName(v.tree) && v.tree in b.trees && AcceptedText(b.trees[v.tree])
  }

  ghost predicate VariantsOk(b: Bundle)
  {
    forall i {:trigger VariantOk(b, i)} :: 0 <= i < |b.config.variants| ==> VariantOk(b, i)
  }

  ghost predicate TreesUsed(b: Bundle)
  {
    forall name :: name in b.trees ==> exists i :: 0 <= i < |b.config.variants| && b.config.variants[i].tree == name
  }

  /** Content of the pages that a menu text places. */
  ghost function Placed(text: string): set<string>
    requires AcceptedText(text)
  {
    ContentIn(ScanLines(Lines(text)).value.entries)
  }

  ghost function ContentIn(entries: seq<Entry>): set<string>
  {
    set i | 0 <= i < |entries| && entries[i].contentId != "" :: entries[i].contentId
  }

  /** Accepted answers: some, no repetition, all placed in the variant's menu. */
  ghost predicate AnswersOk(answers: seq<string>, content: set<string>)
  {
    && answers != [] && NoDuplicates(answers)
    && forall k :: 0 <= k < |answers| ==> answers[k] in content
  }

  function AnswersFor(task: Task, variant: Id): seq<string>
  {
    if variant in task.answers then task.answers[variant] else []
  }

  ghost predicate AnswersAt(b: Bundle, task: Task, v: nat)
    requires v < |b.config.variants|
  {
    var variant := b.config.variants[v];
    && variant.tree in b.trees
    && AcceptedText(b.trees[variant.tree])
    && AnswersOk(AnswersFor(task, variant.id), Placed(b.trees[variant.tree]))
  }

  predicate TaskTextOk(task: Task, variants: nat)
  {
    Identifier(task.id) && Named(task.prompt, 4000) && task.difficulty in BANDS && |task.answers| == variants
  }

  ghost predicate TaskOk(b: Bundle, i: nat)
    requires i < |b.config.tasks|
  {
    var task := b.config.tasks[i];
    && TaskTextOk(task, |b.config.variants|)
    && (forall j :: 0 <= j < i ==> b.config.tasks[j].id != task.id)
    && AllAnswered(b, task)
  }

  ghost predicate AllAnswered(b: Bundle, task: Task)
  {
    forall v {:trigger AnswersAt(b, task, v)} :: 0 <= v < |b.config.variants| ==> AnswersAt(b, task, v)
  }

  ghost predicate TasksOk(b: Bundle)
  {
    forall i {:trigger TaskOk(b, i)} :: 0 <= i < |b.config.tasks| ==> TaskOk(b, i)
  }

  predicate Known(tasks: seq<Task>, id: Id)
  {
    exists i :: 0 <= i < |tasks| && tasks[i].id == id
  }

  function Count(panel: seq<Id>, id: Id): nat
  {
    if panel == [] then 0 else Count(panel[..|panel| - 1], id) + if Last(panel) == id then 1 else 0
  }

  /** Over how many panels a task is spread. */
  function Exposure(panels: seq<seq<Id>>, id: Id): nat
  {
    if panels == [] then 0 else Exposure(panels[..|panels| - 1], id) + Count(Last(panels), id)
  }

  function BandCount(tasks: seq<Task>, panel: seq<Id>, band: string): nat
  {
    if panel == [] then 0
    else BandCount(tasks, panel[..|panel| - 1], band) + if FirstTask(tasks, Last(panel)).difficulty == band then 1
        else 0
  }

  ghost predicate PanelOk(c: Config, panel: seq<Id>)
  {
    && |panel| == c.tasksPerSession && NoDuplicates(panel)
    && (forall k :: 0 <= k < |panel| ==> Known(c.tasks, panel[k]))
    && forall d :: 0 <= d < 3 ==> BandCount(c.tasks, panel, BANDS[d]) == c.tasksPerSession / 3
  }

  ghost predicate PanelsOk(c: Config)
  {
    forall p {:trigger PanelOk(c, c.panels[p])} :: 0 <= p < |c.panels| ==> PanelOk(c, c.panels[p])
  }

  /** All tasks have the same positive exposure. */
  ghost predicate ExposuresOk(c: Config)
    requires c.tasks != []
  {
    var expected := Exposure(c.panels, c.tasks[0].id);
    expected > 0 && forall i :: 0 <= i < |c.tasks| ==> Exposure(c.panels, c.tasks[i].id) == expected
  }

  ghost predicate ValidStudy(b: Bundle)
  {
    && HeaderOk(b.config) && VariantsOk(b) && TreesUsed(b) && TasksOk(b) && PanelsOk(b.config) && ExposuresOk(b.config)
    && b.size <= MAX_BUNDLE_BYTES
  }

  ghost function FailedStage(b: Bundle): Stage
    requires !ValidStudy(b)
  {
    if !HeaderOk(b.config) then Header
    else if !VariantsOk(b) then Variants
    else if !TreesUsed(b) then UnusedTrees
    else if !TasksOk(b) then Tasks
    else if !PanelsOk(b.config) then Panels
    else if !ExposuresOk(b.config) then Exposures
    else Encoding
  }

  // ---------------------------------------------------------------- the checks

  /** The content IDs collected by walking a parsed menu. */
  function Contents(forest: seq<Node>): set<string>
    decreases forest
  {
    if forest == [] then {}
    else
      (if forest[0].contentId != "" then {forest[0].contentId} else {})
      + Contents(forest[0].children) + Contents(forest[1..])
  }

  lemma {:induction false} ContentJoins(e: Entry, a: seq<Entry>, b: seq<Entry>)
    ensures ContentIn([e] + a + b) == (if e.contentId != "" then {e.contentId} else {}) + ContentIn(a) + ContentIn(b)
  {
    var all := [e] + a + b;
    forall x | x in ContentIn(a) ensures x in ContentIn(all) {
      var i :| 0 <= i < |a| && a[i].contentId != "" && a[i].contentId == x;
      assert all[1 + i].contentId == x;
    }
    forall x | x in ContentIn(b) ensures x in ContentIn(all) {
      var i :| 0 <= i < |b| && b[i].contentId != "" && b[i].contentId == x;
      assert all[1 + |a| + i].contentId == x;
    }
    if e.contentId != "" { assert all[0].contentId in ContentIn(all); }
  }

  /** The walk finds exactly the content of the listing. */
  lemma {:induction false} ContentsAreListed(forest: seq<Node>, depth: nat)
    ensures Contents(forest) == ContentIn(Listing(forest, depth))
    decreases forest
  {
    if forest != [] {
      var n := forest[0];
      ContentsAreListed(n.children, depth + 1);
      ContentsAreListed(forest[1..], depth);
      ContentJoins(Entry(depth, n.id, n.caption, n.contentId), Listing(n.children, depth + 1),
                   Listing(forest[1..], depth));
    }
  }

  /** The variant's tree is the one forest that its text lists. */
  ghost predicate TreeStands(b: Bundle, i: nat, trees: map<Id, seq<Node>>)
    requires i < |b.config.variants|
  {
    var v := b.config.variants[i];
    && v.id in trees && v.tree in b.trees && AcceptedText(b.trees[v.tree])
    && Listing(trees[v.id], 0) == ScanLines(Lines(b.trees[v.tree])).value.entries
  }

  /** What has been collected from the first n variants. */
  ghost predicate Collected(b: Bundle, n: nat, trees: map<Id, seq<Node>>, contents: map<Id, set<string>>,
                            used: set<string>)
    requires n <= |b.config.variants|
  {
    && (forall i {:trigger VariantOk(b, i)} :: 0 <= i < n ==> VariantOk(b, i))
    && (forall id :: id in trees <==> exists i :: 0 <= i < n && b.config.variants[i].id == id)
    && (forall i {:trigger CollectedAt(b, i, trees, contents)} :: 0 <= i < n ==> CollectedAt(b, i, trees, contents))
    && (forall name :: name in used <==> exists i :: 0 <= i < n && b.config.variants[i].tree == name)
  }

  ghost predicate CollectedAt(b: Bundle, i: nat, trees: map<Id, seq<Node>>, contents: map<Id, set<string>>)
    requires i < |b.config.variants|
  {
    var v := b.config.variants[i];
    TreeStands(b, i, trees) && v.id in contents && contents[v.id] == Placed(b.trees[v.tree])
  }

  method CheckVariants(b: Bundle)
                       returns (ok: bool, trees: map<Id, seq<Node>>, contents: map<Id, set<string>>, used: set<string>)
    ensures ok <==> VariantsOk(b)
    ensures ok ==> Collected(b, |b.config.variants|, trees, contents, used)
  {
    trees, contents, used := map[], map[], {};
    for n := 0 to |b.config.variants|
      invariant Collected(b, n, trees, contents, used)
    {
      var v := b.config.variants[n];
      if !Identifier(v.id) || v.id in trees || !Named(v.name, 240) || !SafeTreeName(v.tree) || v.tree !in b.trees {
        assert !VariantOk(b, n);
        return false, trees, contents, used;
      }
      var parsed := ParseTree(b.trees[v.tree]);
      if parsed.Malformed? {
        assert !VariantOk(b, n);
        return false, trees, contents, used;
      }
      ghost var trees0, contents0, used0 := trees, contents, used;
      trees := trees[v.id := parsed.value];
      used := used + {v.tree};
      contents := contents[v.id := Contents(parsed.value)];
      ContentsAreListed(parsed.value, 0);
      VariantCollected(b, n, trees0, contents0, used0, trees, contents, used);
    }
    ok := true;
  }

  lemma {:induction false} VariantCollected(b: Bundle, n: nat, trees0: map<Id, seq<Node>>, contents0: map<Id,
                                            set<string>>, used0: set<string>,
                         trees: map<Id, seq<Node>>, contents: map<Id, set<string>>, used: set<string>)
    requires n < |b.config.variants| && Collected(b, n, trees0, contents0, used0)
    requires var v := b.config.variants[n];
             && v.id !in trees0
             && Identifier(v.id)
             && Named(v.name, 240)
             && SafeTreeName(v.tree)
             && v.id in trees
             && v.id in contents
             && trees == trees0[v.id := trees[v.id]]
             && contents == contents0[v.id := contents[v.id]]
             && used == used0 + {v.tree}
             && CollectedAt(b, n, trees, contents)
    ensures Collected(b, n + 1, trees, contents, used)
  {
    var v := b.config.variants[n];
    assert VariantOk(b, n);
    forall i | 0 <= i < n + 1 ensures CollectedAt(b, i, trees, contents) {
      if i < n { assert CollectedAt(b, i, trees0, contents0) && b.config.variants[i].id != v.id; }
    }
    forall id ensures id in trees <==> exists i :: 0 <= i < n + 1 && b.config.variants[i].id == id {
      if id == v.id { assert b.config.variants[n].id == id; }
      if id in trees0 {
        var i :| 0 <= i < n && b.config.variants[i].id == id;
        assert b.config.variants[i].id == id;
      }
    }
    forall name ensures name in used <==> exists i :: 0 <= i < n + 1 && b.config.variants[i].tree == name {
      if name == v.tree { assert b.config.variants[n].tree == name; }
      if name in used0 {
        var i :| 0 <= i < n && b.config.variants[i].tree == name;
        assert b.config.variants[i].tree == name;
      }
    }
  }

  method CheckAnswers(answers: seq<string>, content: set<string>) returns (ok: bool)
    ensures ok <==> AnswersOk(answers, content)
  {
    if answers == [] { return false; }
    var seen: set<string> := {};
    for k := 0 to |answers|
      invariant forall i :: 0 <= i < k ==> answers[i] in content && answers[i] in seen
      invariant forall s :: s in seen ==> exists i :: 0 <= i < k && answers[i] == s
      invariant forall i, j :: 0 <= i < j < k ==> answers[i] != answers[j]
    {
      if answers[k] !in content || answers[k] in seen { return false; }
      seen := seen + {answers[k]};
    }
    ok := true;
  }

  method CheckAllAnswers(b: Bundle, task: Task, contents: map<Id, set<string>>, ghost trees: map<Id, seq<Node>>)
                         returns (ok: bool)
    requires forall v {:trigger CollectedAt(b, v, trees, contents)} :: 0 <= v < |b.config.variants| ==>
               CollectedAt(b, v, trees, contents)
    ensures ok <==> AllAnswered(b, task)
  {
    for v := 0 to |b.config.variants|
      invariant forall u {:trigger AnswersAt(b, task, u)} :: 0 <= u < v ==> AnswersAt(b, task, u)
    {
      assert CollectedAt(b, v, trees, contents);
      var fine := CheckAnswers(AnswersFor(task, b.config.variants[v].id), contents[b.config.variants[v].id]);
      if !fine {
        assert !AnswersAt(b, task, v);
        return false;
      }
      assert AnswersAt(b, task, v);
    }
    ok := true;
  }

  method CheckTask(b: Bundle, i: nat, contents: map<Id, set<string>>, ghost trees: map<Id, seq<Node>>, known: set<Id>)
                   returns (ok: bool)
    requires i < |b.config.tasks|
    requires forall v {:trigger CollectedAt(b, v, trees, contents)} :: 0 <= v < |b.config.variants| ==>
               CollectedAt(b, v, trees, contents)
    requires forall id :: id in known <==> exists j :: 0 <= j < i && b.config.tasks[j].id == id
    ensures ok <==> TaskOk(b, i)
  {
    var task := b.config.tasks[i];
    assert task.id in known <==> exists j :: 0 <= j < i && b.config.tasks[j].id == task.id;
    if task.id in known || !TaskTextOk(task, |b.config.variants|) { return false; }
    ok := CheckAllAnswers(b, task, contents, trees);
  }

  method CheckTasks(b: Bundle, contents: map<Id, set<string>>, ghost trees: map<Id, seq<Node>>)
                    returns (ok: bool, tasks: map<Id, Task>)
    requires forall v {:trigger CollectedAt(b, v, trees, contents)} :: 0 <= v < |b.config.variants| ==>
               CollectedAt(b, v, trees, contents)
    ensures ok <==> TasksOk(b)
    ensures ok ==> forall id :: id in tasks <==> Known(b.config.tasks, id)
    ensures ok ==> forall id :: id in tasks ==> tasks[id] == FirstTask(b.config.tasks, id)
  {
    tasks := map[];
    var all := b.config.tasks;
    for i := 0 to |all|
      invariant forall k {:trigger TaskOk(b, k)} :: 0 <= k < i ==> TaskOk(b, k)
      invariant forall id :: id in tasks <==> exists j :: 0 <= j < i && all[j].id == id
      invariant forall j :: 0 <= j < i ==> all[j].id in tasks && tasks[all[j].id] == all[j]
    {
      var fine := CheckTask(b, i, contents, trees, tasks.Keys);
      if !fine { return false, tasks; }
      assert TaskOk(b, i);
      tasks := tasks[all[i].id := all[i]];
    }
    TasksDiffer(b);
    forall id | id in tasks ensures tasks[id] == FirstTask(all, id) {
      var j :| 0 <= j < |all| && all[j].id == id;
      FirstTaskIs(all, j);
    }
    ok := true;
  }

  ghost predicate DistinctTasks(tasks: seq<Task>)
  {
    forall i, j :: 0 <= i < j < |tasks| ==> tasks[i].id != tasks[j].id
  }

  lemma {:induction false} TasksDiffer(b: Bundle)
    requires TasksOk(b)
    ensures DistinctTasks(b.config.tasks)
  {
    forall i, j | 0 <= i < j < |b.config.tasks| ensures b.config.tasks[i].id != b.config.tasks[j].id {
      assert TaskOk(b, j);
    }
  }

  lemma {:induction false} FirstTaskIs(tasks: seq<Task>, j: nat)
    requires j < |tasks| && DistinctTasks(tasks)
    ensures FirstTask(tasks, tasks[j].id) == tasks[j]
  {
    if j > 0 { FirstTaskIs(tasks[1..], j - 1); }
  }

  function CountOf<K>(counts: map<K, nat>, key: K): nat
  {
    if key in counts then counts[key] else 0
  }

  /** What the loop has established of the first k tasks of a panel. */
  ghost predicate Tallied(c: Config, panel: seq<Id>, k: nat, exposure: map<Id, nat>, seen: set<Id>, counted: map<Id,
                          nat>, difficulty: map<string, nat>)
  {
    && k <= |panel| && (forall i :: 0 <= i < k ==> Known(c.tasks, panel[i]) && panel[i] in seen)
    && (forall id :: id in seen ==> exists i :: 0 <= i < k && panel[i] == id)
    && (forall i, j :: 0 <= i < j < k ==> panel[i] != panel[j])
    && (forall id :: CountOf(counted, id) == CountOf(exposure, id) + Count(panel[..k], id))
    && (forall band :: CountOf(difficulty, band) == BandCount(c.tasks, panel[..k], band))
  }

  lemma {:induction false} TalliedOn(c: Config, panel: seq<Id>, k: nat, exposure: map<Id, nat>, seen: set<Id>,
                                     counted: map<Id, nat>, difficulty: map<string, nat>)
    requires
      && Tallied(c, panel, k, exposure, seen, counted, difficulty)
      && k < |panel|
      && Known(c.tasks, panel[k])
      && panel[k] !in seen
    ensures var id, band := panel[k], FirstTask(c.tasks, panel[k]).difficulty;
            Tallied(c, panel, k + 1, exposure, seen + {id}, counted[id := CountOf(counted, id) + 1],
                    difficulty[band := CountOf(difficulty, band) + 1])
  {
    assert panel[..k + 1][..k] == panel[..k] && Last(panel[..k + 1]) == panel[k];
    var here, band := panel[k], FirstTask(c.tasks, panel[k]).difficulty;
    var counts, bands := counted[here := CountOf(counted, here) + 1], difficulty[band := CountOf(difficulty, band) + 1];
    forall id | id in seen + {here} ensures exists i :: 0 <= i < k + 1 && panel[i] == id {
      if id in seen {
        var i :| 0 <= i < k && panel[i] == id;
        assert panel[i] == id;
      } else {
        assert panel[k] == id;
      }
    }
    forall id ensures CountOf(counts, id) == CountOf(exposure, id) + Count(panel[..k + 1], id) {
      assert CountOf(counted, id) == CountOf(exposure, id) + Count(panel[..k], id);
    }
    forall name ensures CountOf(bands, name) == BandCount(c.tasks, panel[..k + 1], name) {
      assert CountOf(difficulty, name) == BandCount(c.tasks, panel[..k], name);
    }
  }

  lemma {:induction false} NotAPanel(c: Config, panel: seq<Id>, k: nat, seen: set<Id>)
    requires k < |panel| && (forall id :: id in seen ==> exists i :: 0 <= i < k && panel[i] == id)
    requires !Known(c.tasks, panel[k]) || panel[k] in seen
    ensures !PanelOk(c, panel)
  {}

  /** One panel: membership, repetition and bands; its tasks are counted on the way. */
  method CheckPanel(c: Config, panel: seq<Id>, tasks: map<Id, Task>, exposure: map<Id, nat>)
                    returns (ok: bool, counted: map<Id, nat>)
    requires forall id :: id in tasks <==> Known(c.tasks, id)
    requires forall id :: id in tasks ==> tasks[id] == FirstTask(c.tasks, id)
    ensures ok <==> PanelOk(c, panel)
    ensures ok ==> forall id :: CountOf(counted, id) == CountOf(exposure, id) + Count(panel, id)
  {
    counted := exposure;
    if |panel| != c.tasksPerSession { return false, counted; }
    var seen: set<Id>, difficulty: map<string, nat> := {}, map[];
    for k := 0 to |panel|
      invariant Tallied(c, panel, k, exposure, seen, counted, difficulty)
    {
      var id := panel[k];
      if id !in tasks || id in seen {
        NotAPanel(c, panel, k, seen);
        return false, counted;
      }
      var band := tasks[id].difficulty;
      TalliedOn(c, panel, k, exposure, seen, counted, difficulty);
      seen := seen + {id};
      counted := counted[id := CountOf(counted, id) + 1];
      difficulty := difficulty[band := CountOf(difficulty, band) + 1];
    }
    assert panel[..|panel|] == panel;
    ok := CheckBands(c, panel, difficulty);
  }

  method CheckBands(c: Config, panel: seq<Id>, difficulty: map<string, nat>) returns (ok: bool)
    requires forall band :: CountOf(difficulty, band) == BandCount(c.tasks, panel, band)
    ensures ok <==> forall d :: 0 <= d < 3 ==> BandCount(c.tasks, panel, BANDS[d]) == c.tasksPerSession / 3
  {
    for d := 0 to 3
      invariant forall e :: 0 <= e < d ==> BandCount(c.tasks, panel, BANDS[e]) == c.tasksPerSession / 3
    {
      if CountOf(difficulty, BANDS[d]) != c.tasksPerSession / 3 { return false; }
    }
    ok := true;
  }

  method CheckPanels(c: Config, tasks: map<Id, Task>) returns (ok: bool, exposure: map<Id, nat>)
    requires forall id :: id in tasks <==> Known(c.tasks, id)
    requires forall id :: id in tasks ==> tasks[id] == FirstTask(c.tasks, id)
    ensures ok <==> PanelsOk(c)
    ensures ok ==> forall id :: CountOf(exposure, id) == Exposure(c.panels, id)
  {
    exposure := map[];
    for p := 0 to |c.panels|
      invariant forall q {:trigger PanelOk(c, c.panels[q])} :: 0 <= q < p ==> PanelOk(c, c.panels[q])
      invariant forall id :: CountOf(exposure, id) == Exposure(c.panels[..p], id)
    {
      var fine: bool;
      assert c.panels[..p + 1][..p] == c.panels[..p] && Last(c.panels[..p + 1]) == c.panels[p];
      fine, exposure := CheckPanel(c, c.panels[p], tasks, exposure);
      if !fine {
        assert !PanelOk(c, c.panels[p]);
        return false, exposure;
      }
    }
    assert c.panels[..|c.panels|] == c.panels;
    ok := true;
  }

  method Validate(b: Bundle) returns (r: Validated)
    ensures r.Snapshot? <==> ValidStudy(b)
    ensures r.Refused? ==> r.stage == FailedStage(b)
    ensures r.Snapshot? ==> forall i {:trigger TreeStands(b, i, r.trees)} :: 0 <= i < |b.config.variants| ==>
              TreeStands(b, i, r.trees)
  {
    var c := b.config;
    if !HeaderOk(c) { return Refused(Header); }
    var ok, trees, contents, used := CheckVariants(b);
    if !ok { return Refused(Variants); }
    if !(b.trees.Keys <= used) { return Refused(UnusedTrees); }
    var fine, tasks := CheckTasks(b, contents, trees);
    if !fine { return Refused(Tasks); }
    var even, exposure := CheckPanels(c, tasks);
    if !even { return Refused(Panels); }
    var expected := CountOf(exposure, c.tasks[0].id);
    for i := 0 to |c.tasks|
      invariant forall j :: 0 <= j < i ==> Exposure(c.panels, c.tasks[j].id) == expected > 0
    {
      var e := CountOf(exposure, c.tasks[i].id);
      if e == 0 || e != expected { return Refused(Exposures); }
    }
    if b.size > MAX_BUNDLE_BYTES { return Refused(Encoding); }
    forall i | 0 <= i < |c.variants| ensures TreeStands(b, i, trees) {
      assert CollectedAt(b, i, trees, contents);
    }
    r := Snapshot(trees);
  }

  // ------------------------------------------------------------ double counting

  ghost predicate InBand(task: Task, band: Option<string>)
  {
    band.None? || task.difficulty == band.value
  }

  /** Number of tasks of a band, or of all. */
  ghost function Bank(tasks: seq<Task>, band: Option<string>): nat
  {
    if tasks == [] then 0 else Bank(tasks[..|tasks| - 1], band) + if InBand(Last(tasks), band) then 1 else 0
  }

  /** Task by task: how often the tasks of a band occur in one panel. */
  ghost function Occurrences(tasks: seq<Task>, panel: seq<Id>, band: Option<string>): nat
  {
    if tasks == [] then 0
    else Occurrences(tasks[..|tasks| - 1], panel, band) + if InBand(Last(tasks), band)
        then Count(panel, Last(tasks).id) else 0
  }

  /** Task by task: the exposure of all tasks of a band. */
  ghost function TotalExposure(tasks: seq<Task>, panels: seq<seq<Id>>, band: Option<string>): nat
  {
    if tasks == [] then 0
    else TotalExposure(tasks[..|tasks| - 1], panels, band) + if InBand(Last(tasks), band)
        then Exposure(panels, Last(tasks).id) else 0
  }

  /** Place by place: how many places of a panel hold a task of the band. */
  ghost function PlacesHeld(tasks: seq<Task>, panel: seq<Id>, band: Option<string>): nat
  {
    if band.None? then |panel| else BandCount(tasks, panel, band.value)
  }

  lemma {:induction false} TotalsAdd(tasks: seq<Task>, panels: seq<seq<Id>>, panel: seq<Id>, band: Option<string>)
    ensures TotalExposure(tasks, panels + [panel], band) ==
            TotalExposure(tasks, panels, band) + Occurrences(tasks, panel, band)
  {
    assert (panels + [panel])[..|panels|] == panels;
    if tasks != [] { TotalsAdd(tasks[..|tasks| - 1], panels, panel, band); }
  }

  /** One more place in the panel counts once, for the one task that stands there. */
  lemma {:induction false} PlaceCountsOnce(tasks: seq<Task>, panel: seq<Id>, id: Id, band: Option<string>, k: nat)
    requires DistinctTasks(tasks) && k <= |tasks|
    ensures var here := Occurrences(tasks[..k], panel + [id], band) - Occurrences(tasks[..k], panel, band);
            here == if Known(tasks[..k], id) && InBand(FirstTask(tasks, id), band) then 1 else 0
  {
    assert (panel + [id])[..|panel|] == panel;
    if k > 0 {
      PlaceCountsOnce(tasks, panel, id, band, k - 1);
      assert tasks[..k][..k - 1] == tasks[..k - 1] && Last(tasks[..k]) == tasks[k - 1];
      FirstTaskIs(tasks, k - 1);
      if tasks[k - 1].id == id { assert tasks[..k][k - 1].id == id; }
      if Known(tasks[..k - 1], id) {
        var i :| 0 <= i < k - 1 && tasks[..k - 1][i].id == id;
        assert tasks[..k][i].id == id;
      }
    }
  }

  lemma {:induction false} NothingOccurs(tasks: seq<Task>, band: Option<string>)
    ensures Occurrences(tasks, [], band) == 0 && TotalExposure(tasks, [], band) == 0
  {
    if tasks != [] { NothingOccurs(tasks[..|tasks| - 1], band); }
  }

  /** Counting one panel task by task or place by place gives the same. */
  lemma {:induction false} PanelCountedTwice(tasks: seq<Task>, panel: seq<Id>, band: Option<string>)
    requires DistinctTasks(tasks) && forall k :: 0 <= k < |panel| ==> Known(tasks, panel[k])
    ensures Occurrences(tasks, panel, band) == PlacesHeld(tasks, panel, band)
  {
    if panel == [] {
      NothingOccurs(tasks, band);
    } else {
      var init, id := panel[..|panel| - 1], Last(panel);
      PanelCountedTwice(tasks, init, band);
      PlaceCountsOnce(tasks, init, id, band, |tasks|);
      assert tasks[..|tasks|] == tasks && init + [id] == panel && Known(tasks, panel[|panel| - 1]);
    }
  }

  lemma {:induction false} PanelsCountedTwice(c: Config, k: nat, band: Option<string>, share: nat)
    requires DistinctTasks(c.tasks) && PanelsOk(c) && k <= |c.panels|
    requires forall p :: 0 <= p < |c.panels| ==> PlacesHeld(c.tasks, c.panels[p], band) == share
    ensures TotalExposure(c.tasks, c.panels[..k], band) == k * share
  {
    if k == 0 {
      NothingOccurs(c.tasks, band);
    } else {
      PanelsCountedTwice(c, k - 1, band, share);
      assert PanelOk(c, c.panels[k - 1]);
      OnePanelMore(c.tasks, c.panels, k, c.panels[k - 1], band, share);
    }
  }

  lemma {:induction false} OnePanelMore(tasks: seq<Task>, panels: seq<seq<Id>>, k: nat, panel: seq<Id>,
                                        band: Option<string>, share: nat)
    requires
      && DistinctTasks(tasks)
      && 0 < k <= |panels|
      && panel == panels[k - 1]
      && (forall i :: 0 <= i < |panel| ==> Known(tasks, panel[i]))
    requires TotalExposure(tasks, panels[..k - 1], band) == (k - 1) * share && PlacesHeld(tasks, panel, band) == share
    ensures TotalExposure(tasks, panels[..k], band) == k * share
  {
    assert panels[..k - 1] + [panel] == panels[..k];
    TotalsAdd(tasks, panels[..k - 1], panel, band);
    PanelCountedTwice(tasks, panel, band);
    OneMore(k - 1, share);
  }

  lemma {:induction false} EqualExposure(tasks: seq<Task>, panels: seq<seq<Id>>, band: Option<string>, e: nat)
    requires forall i :: 0 <= i < |tasks| ==> Exposure(panels, tasks[i].id) == e
    ensures TotalExposure(tasks, panels, band) == Bank(tasks, band) * e
  {
    if tasks != [] {
      var init := tasks[..|tasks| - 1];
      EqualExposure(init, panels, band, e);
      OneMore(Bank(init, band), e);
    }
  }

  lemma {:induction false} OneMore(a: nat, e: nat)
    ensures (a + 1) * e == a * e + e
  {}

  lemma {:induction false} WholeBank(tasks: seq<Task>)
    ensures Bank(tasks, None) == |tasks|
  {
    if tasks != [] { WholeBank(tasks[..|tasks| - 1]); }
  }

  lemma {:induction false} StudyFacts(b: Bundle)
    requires ValidStudy(b)
    ensures var c := b.config;
            && DistinctTasks(c.tasks) && PanelsOk(c) && 0 < |c.tasks| && Exposure(c.panels, c.tasks[0].id) > 0
            && forall i :: 0 <= i < |c.tasks| ==> Exposure(c.panels, c.tasks[i].id) == Exposure(c.panels, c.tasks[0].id)
  {
    TasksDiffer(b);
  }

  /** Both countings of a band, or of all tasks. */
  lemma {:induction false} CountedBothWays(c: Config, band: Option<string>, share: nat, e: nat)
    requires
      && DistinctTasks(c.tasks)
      && PanelsOk(c)
      && forall i :: 0 <= i < |c.tasks| ==> Exposure(c.panels, c.tasks[i].id) == e
    requires forall p :: 0 <= p < |c.panels| ==> PlacesHeld(c.tasks, c.panels[p], band) == share
    ensures Bank(c.tasks, band) * e == |c.panels| * share
  {
    assert c.panels[..|c.panels|] == c.panels;
    EqualExposure(c.tasks, c.panels, band, e);
    PanelsCountedTwice(c, |c.panels|, band, share);
  }

  lemma {:induction false} BandCounted(c: Config, d: nat, e: nat)
    requires DistinctTasks(c.tasks) && PanelsOk(c) && d < 3 && c.tasksPerSession >= 0
    requires forall i :: 0 <= i < |c.tasks| ==> Exposure(c.panels, c.tasks[i].id) == e
    ensures Bank(c.tasks, Some(BANDS[d])) * e == |c.panels| * (c.tasksPerSession / 3)
  {
    forall p | 0 <= p < |c.panels| ensures PlacesHeld(c.tasks, c.panels[p], Some(BANDS[d])) == c.tasksPerSession / 3 {
      assert PanelOk(c, c.panels[p]);
    }
    CountedBothWays(c, Some(BANDS[d]), c.tasksPerSession / 3, e);
  }

  lemma {:induction false} AllCounted(c: Config, e: nat)
    requires DistinctTasks(c.tasks) && PanelsOk(c) && c.tasksPerSession >= 0
    requires forall i :: 0 <= i < |c.tasks| ==> Exposure(c.panels, c.tasks[i].id) == e
    ensures |c.tasks| * e == |c.panels| * c.tasksPerSession
  {
    forall p | 0 <= p < |c.panels| ensures PlacesHeld(c.tasks, c.panels[p], None) == c.tasksPerSession {
      assert PanelOk(c, c.panels[p]);
    }
    CountedBothWays(c, None, c.tasksPerSession, e);
    WholeBank(c.tasks);
  }

  /** The experiment is balanced. Counted task by task or panel by panel, exposure
      comes to the same; so the easy, medium and hard banks are equal in size, which
      the validation never looks at. */
  lemma {:induction false} StudyIsBalanced(b: Bundle)
    requires ValidStudy(b)
    ensures var c := b.config;
            && Exposure(c.panels, c.tasks[0].id) * |c.tasks| == |c.panels| * c.tasksPerSession
            && Bank(c.tasks, Some("easy")) == Bank(c.tasks, Some("medium")) == Bank(c.tasks, Some("hard"))
  {
    var c := b.config;
    var e := Exposure(c.panels, c.tasks[0].id);
    StudyFacts(b);
    AllCounted(c, e);
    BandCounted(c, 0, e);
    BandCounted(c, 1, e);
    BandCounted(c, 2, e);
    SameFactor(Bank(c.tasks, Some(BANDS[0])), Bank(c.tasks, Some(BANDS[1])), e);
    SameFactor(Bank(c.tasks, Some(BANDS[1])), Bank(c.tasks, Some(BANDS[2])), e);
  }

  lemma {:induction false} SameFactor(a: nat, b: nat, e: nat)
    requires a * e == b * e && e > 0
    ensures a == b
  {
    assert (a - b) * e == 0;
  }
}
