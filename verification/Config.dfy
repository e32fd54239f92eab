// Validation of the configuration and its flattening into one workload per pool
// (internal/config/config.go).
module Config {
  import opened Basics
  import Protocol

  datatype PoolConfig = PoolConfig(resourceClass: string, poolSize: int, maxPending: int, preRestore: bool)

  datatype Template = Template(rootfs: string, checkpoint: string, pools: seq<PoolConfig>)

  datatype Config = Config(
    runscPath: string,
    networkMode: string,
    pluginDir: string,
    subnet: string,
    resourceClasses: seq<string>,
    templates: map<string, Template>)

  datatype Workload = Workload(
    rootfs: string,
    checkpoint: string,
    poolSize: int,
    maxPending: int,
    preRestore: bool,
    resourceClass: string)

  function EffectiveMaxPending(p: PoolConfig): (n: int)
    ensures n >= 1 && (p.maxPending > 0 ==> n == p.maxPending)
    ensures p.maxPending <= 0 ==> n == if p.poolSize > 0 then 2 * p.poolSize else 2
  {
    if p.maxPending > 0 then p.maxPending
    else if p.poolSize > 0 then p.poolSize * 2
    else 2
  }

  // The pool's own default, computed again where callers queue, is the same number
  // exactly if one of the two sizes is positive.
  lemma EffectiveIsTheQueueLimit(p: PoolConfig, c: Protocol.Params)
    requires c.poolSize == p.poolSize && c.maxPending == p.maxPending
    ensures EffectiveMaxPending(p) == Protocol.QueueLimit(c) <==> p.maxPending > 0 || p.poolSize > 0
  {
  }

  method HasResourceClass(classes: seq<string>, name: string) returns (found: bool)
    ensures found <==> name in classes
  {
    for i := 0 to |classes|
      invariant name !in classes[..i]
    {
      if classes[i] == name {
        return true;
      }
    }
    return false;
  }

  // ---- Validate -----------------------------------------------------------

  datatype Problem =
    | NoRunsc
    | NoTemplates
    | NoRootfs(name: string)
    | NoCheckpoint(name: string)
    | NoPools(name: string)
    | BadPoolSize(name: string, i: nat)
    | NoClass(name: string, i: nat)
    | UnknownClass(name: string, i: nat)
    | NoPluginDir
    | NoSubnet

  predicate HasPool(c: Config, name: string, i: nat) {
    name in c.templates && i < |c.templates[name].pools|
  }

  function PoolOf(c: Config, name: string, i: nat): PoolConfig
    requires HasPool(c, name, i)
  {
    c.templates[name].pools[i]
  }

  // The problem is there.
  predicate Has(c: Config, p: Problem) {
    match p
    case NoRunsc => c.runscPath == ""
    case NoTemplates => |c.templates| == 0
    case NoRootfs(name) => name in c.templates && c.templates[name].rootfs == ""
    case NoCheckpoint(name) => name in c.templates && c.templates[name].checkpoint == ""
    case NoPools(name) => name in c.templates && c.templates[name].pools == []
    case BadPoolSize(name, i) => HasPool(c, name, i) && PoolOf(c, name, i).poolSize < 1
    case NoClass(name, i) => HasPool(c, name, i) && PoolOf(c, name, i).resourceClass == ""
    case UnknownClass(name, i) => HasPool(c, name, i) && PoolOf(c, name, i).resourceClass !in c.resourceClasses
    case NoPluginDir => c.networkMode == "cni" && c.pluginDir == ""
    case NoSubnet => c.networkMode == "cni" && c.subnet == ""
  }

  ghost predicate Sound(c: Config) {
    forall p :: !Has(c, p)
  }

  ghost predicate TemplateSound(c: Config, name: string) {
    && !Has(c, NoRootfs(name)) && !Has(c, NoCheckpoint(name)) && !Has(c, NoPools(name))
    && forall i: nat :: PoolSound(c, name, i)
  }

  ghost predicate PoolSound(c: Config, name: string, i: nat) {
    !Has(c, BadPoolSize(name, i)) && !Has(c, NoClass(name, i)) && !Has(c, UnknownClass(name, i))
  }

  // The template that a problem is in.
  function Of(p: Problem): Option<string> {
    match p
    case NoRootfs(name) => Some(name)
    case NoCheckpoint(name) => Some(name)
    case NoPools(name) => Some(name)
    case BadPoolSize(name, _) => Some(name)
    case NoClass(name, _) => Some(name)
    case UnknownClass(name, _) => Some(name)
    case _ => None
  }

  // Its template has no problem that is looked for before it.
  ghost predicate Leads(c: Config, p: Problem) {
    match p
    case NoCheckpoint(name) => !Has(c, NoRootfs(name))
    case NoPools(name) => !Has(c, NoRootfs(name)) && !Has(c, NoCheckpoint(name))
    case BadPoolSize(name, i) => LeadsPools(c, name, i)
    case NoClass(name, i) => LeadsPools(c, name, i) && !Has(c, BadPoolSize(name, i))
    case UnknownClass(name, i) =>
      LeadsPools(c, name, i) && !Has(c, BadPoolSize(name, i)) && !Has(c, NoClass(name, i))
    case _ => true
  }

  ghost predicate LeadsPools(c: Config, name: string, i: nat) {
    && !Has(c, NoRootfs(name)) && !Has(c, NoCheckpoint(name))
    && forall j: nat :: j < i ==> PoolSound(c, name, j)
  }

  // The checks inside the template loop.
  method ValidateTemplate(c: Config, name: string) returns (problem: Option<Problem>)
    requires name in c.templates
    ensures problem.None? <==> TemplateSound(c, name)
    ensures problem.Some? ==> Has(c, problem.value) && Of(problem.value) == Some(name) && Leads(c, problem.value)
  {
    var tmpl := c.templates[name];
    if tmpl.rootfs == "" {
      return Some(NoRootfs(name));
    }
    if tmpl.checkpoint == "" {
      return Some(NoCheckpoint(name));
    }
    if |tmpl.pools| == 0 {
      return Some(NoPools(name));
    }
    for i := 0 to |tmpl.pools|
      invariant forall j: nat :: j < i ==> PoolSound(c, name, j)
    {
      var pool := tmpl.pools[i];
      if pool.poolSize < 1 {
        assert !PoolSound(c, name, i);
        return Some(BadPoolSize(name, i));
      }
      if pool.resourceClass == "" {
        assert !PoolSound(c, name, i);
        return Some(NoClass(name, i));
      }
      var known := HasResourceClass(c.resourceClasses, pool.resourceClass);
      if !known {
        assert !PoolSound(c, name, i);
        return Some(UnknownClass(name, i));
      }
    }
    return None;
  }

  // Validate accepts exactly the configurations without any problem, whatever
  // the order in which the templates come up, and reports only problems that are
  // there.
  method Validate(c: Config) returns (problem: Option<Problem>)
    ensures problem.None? <==> Sound(c)
    ensures problem.Some? ==> Has(c, problem.value) && Leads(c, problem.value)
    ensures problem == Some(NoRunsc) <==> c.runscPath == ""
    ensures problem == Some(NoTemplates) <==> c.runscPath != "" && c.templates == map[]
    ensures problem == Some(NoPluginDir) || problem == Some(NoSubnet) ==>
              forall name :: name in c.templates ==> TemplateSound(c, name)
    ensures problem == Some(NoSubnet) ==> c.pluginDir != ""
  {
    if c.runscPath == "" {
      assert Has(c, NoRunsc);
      return Some(NoRunsc);
    }
    if |c.templates| == 0 {
      assert Has(c, NoTemplates);
      return Some(NoTemplates);
    }
    var todo := c.templates.Keys;
    while todo != {}
      invariant todo <= c.templates.Keys
      invariant forall name :: name in c.templates.Keys - todo ==> TemplateSound(c, name)
      decreases |todo|
    {
      var name :| name in todo;
      problem := ValidateTemplate(c, name);
      if problem.Some? {
        return;
      }
      todo := todo - {name};
    }
    if c.networkMode == "cni" {
      if c.pluginDir == "" {
        assert Has(c, NoPluginDir);
        return Some(NoPluginDir);
      }
      if c.subnet == "" {
        assert Has(c, NoSubnet);
        return Some(NoSubnet);
      }
    }
    SoundByParts(c);
    return None;
  }

  // What it takes to be accepted, in full.
  lemma SoundExactly(c: Config)
    ensures Sound(c) <==>
              && c.runscPath != "" && c.templates != map[]
              && (c.networkMode == "cni" ==> c.pluginDir != "" && c.subnet != "")
              && forall name :: name in c.templates ==>
                   var tmpl := c.templates[name];
                   && tmpl.rootfs != "" && tmpl.checkpoint != "" && tmpl.pools != []
                   && forall i :: 0 <= i < |tmpl.pools| ==>
                        && tmpl.pools[i].poolSize >= 1
                        && tmpl.pools[i].resourceClass != "" && tmpl.pools[i].resourceClass in c.resourceClasses
  {
    if Sound(c) {
      assert !Has(c, NoRunsc) && !Has(c, NoTemplates) && !Has(c, NoPluginDir) && !Has(c, NoSubnet);
      forall name | name in c.templates ensures TemplateSound(c, name) {
        assert !Has(c, NoRootfs(name)) && !Has(c, NoCheckpoint(name)) && !Has(c, NoPools(name));
        forall i: nat ensures PoolSound(c, name, i) {
          assert !Has(c, BadPoolSize(name, i)) && !Has(c, NoClass(name, i)) && !Has(c, UnknownClass(name, i));
        }
      }
      forall name, i | name in c.templates && 0 <= i < |c.templates[name].pools|
        ensures var p := c.templates[name].pools[i];
                p.poolSize >= 1 && p.resourceClass != "" && p.resourceClass in c.resourceClasses
      {
        assert TemplateSound(c, name) && PoolSound(c, name, i);
      }
    }
  }

  lemma SoundByParts(c: Config)
    requires !Has(c, NoRunsc) && !Has(c, NoTemplates) && !Has(c, NoPluginDir) && !Has(c, NoSubnet)
    requires forall name :: name in c.templates ==> TemplateSound(c, name)
    ensures Sound(c)
  {
    forall p ensures !Has(c, p) {
      match p
      case BadPoolSize(name, i) => if name in c.templates { assert PoolSound(c, name, i); }
      case NoClass(name, i) => if name in c.templates { assert PoolSound(c, name, i); }
      case UnknownClass(name, i) => if name in c.templates { assert PoolSound(c, name, i); }
      case NoRootfs(name) => if name in c.templates { assert TemplateSound(c, name); }
      case NoCheckpoint(name) => if name in c.templates { assert TemplateSound(c, name); }
      case NoPools(name) => if name in c.templates { assert TemplateSound(c, name); }
      case _ =>
    }
  }

  // ---- Workloads ----------------------------------------------------------

  function Key(name: string, rc: string): string {
    name + "/" + rc
  }

  function WorkloadOf(tmpl: Template, pool: PoolConfig): Workload {
    Workload(
      tmpl.rootfs, tmpl.checkpoint,
      pool.poolSize, EffectiveMaxPending(pool), pool.preRestore, pool.resourceClass)
  }

  function KeyOf(c: Config, name: string, i: nat): string
    requires HasPool(c, name, i)
  {
    Key(name, PoolOf(c, name, i).resourceClass)
  }

  // Pool i of a template writes key k, and no later pool among the first n of
  // that template does.
  ghost predicate WritesLast(c: Config, name: string, i: nat, n: nat, k: string) {
    && HasPool(c, name, i) && i < n && KeyOf(c, name, i) == k
    && forall j: nat :: i < j < n && HasPool(c, name, j) ==> KeyOf(c, name, j) != k
  }

  // Every entry is the last word of some template in done, or of the first n
  // pools of cur, on its key, and every key they write is there.
  ghost predicate Flattens(c: Config, done: set<string>, cur: string, n: nat, m: map<string, Workload>) {
    && (forall name, i: nat :: HasPool(c, name, i) && (name in done || (name == cur && i < n)) ==>
          KeyOf(c, name, i) in m)
    && (forall k :: k in m ==> exists name, i: nat :: Entry(c, done, cur, n, m, k, name, i))
  }

  ghost predicate Entry(c: Config, done: set<string>, cur: string, n: nat, m: map<string, Workload>,
                        k: string, name: string, i: nat)
    requires k in m
  {
    && (name in done || name == cur)
    && HasPool(c, name, i)
    && WritesLast(c, name, i, if name in done then |c.templates[name].pools| else n, k)
    && m[k] == WorkloadOf(c.templates[name], PoolOf(c, name, i))
  }

  // The whole flattening: each entry is the last word of some template.
  ghost predicate Flattening(c: Config, m: map<string, Workload>) {
    && (forall name, i: nat :: HasPool(c, name, i) ==> KeyOf(c, name, i) in m)
    && (forall k :: k in m ==> exists name, i: nat :: Decides(c, m, k, name, i))
  }

  ghost predicate Decides(c: Config, m: map<string, Workload>, k: string, name: string, i: nat)
    requires k in m
  {
    && HasPool(c, name, i)
    && WritesLast(c, name, i, |c.templates[name].pools|, k)
    && m[k] == WorkloadOf(c.templates[name], PoolOf(c, name, i))
  }

  method Workloads(c: Config) returns (result: map<string, Workload>)
    ensures Flattening(c, result)
  {
    result := map[];
    var todo := c.templates.Keys;
    ghost var done: set<string> := {};
    while todo != {}
      invariant todo !! done && todo + done == c.templates.Keys
      invariant Flattens(c, done, "", 0, result)
      decreases |todo|
    {
      var name :| name in todo;
      var pools := c.templates[name].pools;
      Enter(c, done, name, result);
      for i := 0 to |pools|
        invariant Flattens(c, done, name, i, result)
      {
        ghost var before := result;
        result := result[name + "/" + pools[i].resourceClass := WorkloadOf(c.templates[name], pools[i])];
        OneMore(c, done, name, i, before, result);
      }
      Leave(c, done, name, result);
      todo := todo - {name};
      done := done + {name};
    }
    Finish(c, done, result);
  }

  lemma Enter(c: Config, done: set<string>, name: string, m: map<string, Workload>)
    requires Flattens(c, done, "", 0, m) && name !in done
    ensures Flattens(c, done, name, 0, m)
  {
    forall k | k in m ensures exists x, i: nat :: Entry(c, done, name, 0, m, k, x, i) {
      var x, i: nat :| Entry(c, done, "", 0, m, k, x, i);
      assert Entry(c, done, name, 0, m, k, x, i);
    }
  }

  lemma OneMore(c: Config, done: set<string>, name: string, n: nat, m: map<string, Workload>, m': map<string, Workload>)
    requires Flattens(c, done, name, n, m) && name !in done && HasPool(c, name, n)
    requires m' == m[KeyOf(c, name, n) := WorkloadOf(c.templates[name], PoolOf(c, name, n))]
    ensures Flattens(c, done, name, n + 1, m')
  {
    var n' := n + 1;
    forall k | k in m' ensures exists x, i: nat :: Entry(c, done, name, n', m', k, x, i) {
      if k == KeyOf(c, name, n) {
        assert Entry(c, done, name, n', m', k, name, n);
      } else {
        var x, i: nat :| Entry(c, done, name, n, m, k, x, i);
        assert Entry(c, done, name, n', m', k, x, i);
      }
    }
  }

  lemma Leave(c: Config, done: set<string>, name: string, m: map<string, Workload>)
    requires name in c.templates && name !in done
    requires Flattens(c, done, name, |c.templates[name].pools|, m)
    ensures Flattens(c, done + {name}, "", 0, m)
  {
    forall k | k in m ensures exists x, i: nat :: Entry(c, done + {name}, "", 0, m, k, x, i) {
      var x, i: nat :| Entry(c, done, name, |c.templates[name].pools|, m, k, x, i);
      assert Entry(c, done + {name}, "", 0, m, k, x, i);
    }
  }

  lemma Finish(c: Config, done: set<string>, m: map<string, Workload>)
    requires Flattens(c, done, "", 0, m) && done == c.templates.Keys
    ensures Flattening(c, m)
  {
    forall k | k in m ensures exists x, i: nat :: Decides(c, m, k, x, i) {
      var x, i: nat :| Entry(c, done, "", 0, m, k, x, i);
      assert Decides(c, m, k, x, i);
    }
  }

  // ---- what the flattening is good for -----------------------------------

  // The entry has the template's image and the pool's numbers, the queue limit as
  // configured, or else twice the size.
  predicate Takes(w: Workload, tmpl: Template, pool: PoolConfig) {
    && w.rootfs == tmpl.rootfs && w.checkpoint == tmpl.checkpoint
    && w.poolSize == pool.poolSize && w.preRestore == pool.preRestore && w.resourceClass == pool.resourceClass
    && (pool.maxPending > 0 ==> w.maxPending == pool.maxPending)
    && (pool.maxPending <= 0 && pool.poolSize > 0 ==> w.maxPending == pool.poolSize + pool.poolSize)
  }

  // Every entry has them from one template and the last of its pools on that key.
  lemma EntriesTakeTheirFields(c: Config, m: map<string, Workload>, k: string) returns (name: string, i: nat)
    requires Flattening(c, m) && k in m
    ensures HasPool(c, name, i) && k == name + "/" + PoolOf(c, name, i).resourceClass
    ensures Takes(m[k], c.templates[name], c.templates[name].pools[i])
    ensures forall j :: i < j < |c.templates[name].pools| ==>
              c.templates[name].pools[j].resourceClass != c.templates[name].pools[i].resourceClass
  {
    name, i :| Decides(c, m, k, name, i);
    forall j | i < j < |c.templates[name].pools|
      ensures c.templates[name].pools[j].resourceClass != c.templates[name].pools[i].resourceClass
    {
      assert KeyOf(c, name, j) != k;
    }
  }

  // The template's name ends in a piece that the other's class begins with.
  ghost predicate Shares(name: string, rc: string, name': string, rc': string) {
    exists x: string :: name == name' + "/" + x && rc' == x + "/" + rc
  }

  // Two keys are equal exactly if the pairs are, or if a slash inside one of them
  // can be read as the separator of the other.
  lemma KeysEqualExactly(name: string, rc: string, name': string, rc': string)
    ensures Key(name, rc) == Key(name', rc') <==>
            || (name == name' && rc == rc')
            || Shares(name, rc, name', rc') || Shares(name', rc', name, rc)
  {
    if Key(name, rc) == Key(name', rc') {
      if |name'| <= |name| {
        SplitsOrShares(name, rc, name', rc');
      } else {
        SplitsOrShares(name', rc', name, rc);
      }
    }
    if Shares(name, rc, name', rc') {
      SharesKey(name, rc, name', rc');
    }
    if Shares(name', rc', name, rc) {
      SharesKey(name', rc', name, rc);
    }
  }

  lemma SharesKey(name: string, rc: string, name': string, rc': string)
    requires Shares(name, rc, name', rc')
    ensures Key(name, rc) == Key(name', rc') && rc != rc'
  {
    var x: string :| name == name' + "/" + x && rc' == x + "/" + rc;
    assert name' + "/" + x + "/" + rc == name' + "/" + (x + "/" + rc);
    assert |rc'| > |rc|;
  }

  lemma SplitsOrShares(name: string, rc: string, name': string, rc': string)
    requires Key(name, rc) == Key(name', rc') && |name'| <= |name|
    ensures (name == name' && rc == rc') || Shares(name, rc, name', rc')
  {
    var k := Key(name, rc);
    assert name == k[..|name|] && name' == k[..|name'|];
    assert rc == k[|name| + 1..] && rc' == k[|name'| + 1..];
    if |name'| < |name| {
      var x := name[|name'| + 1..];
      assert name[|name'|] == k[|name'|] == '/';
      assert name == name' + "/" + x;
      assert rc' == x + "/" + rc;
    }
  }

  // Some two pools of the configuration share a key in this way.
  ghost predicate Overlap(c: Config) {
    exists name, i: nat, name', j: nat :: Overlaps(c, name, i, name', j)
  }

  ghost predicate Overlaps(c: Config, name: string, i: nat, name': string, j: nat) {
    && HasPool(c, name, i) && HasPool(c, name', j)
    && Shares(name, PoolOf(c, name, i).resourceClass, name', PoolOf(c, name', j).resourceClass)
  }

  // Without slashes in the template names, or in the class names, none do.
  lemma SlashFreeNeverOverlaps(c: Config)
    requires || (forall name :: name in c.templates ==> '/' !in name)
             || (forall name, i: nat :: HasPool(c, name, i) ==> '/' !in PoolOf(c, name, i).resourceClass)
    ensures !Overlap(c)
  {
    forall name, i: nat, name', j: nat ensures !Overlaps(c, name, i, name', j) {
      if HasPool(c, name, i) && HasPool(c, name', j) {
        SharesSlashes(name, PoolOf(c, name, i).resourceClass, name', PoolOf(c, name', j).resourceClass);
      }
    }
  }

  lemma SharesSlashes(name: string, rc: string, name': string, rc': string)
    ensures Shares(name, rc, name', rc') ==> '/' in name && '/' in rc'
  {
    if x: string :| name == name' + "/" + x && rc' == x + "/" + rc {
      assert name[|name'|] == '/' && rc'[|x|] == '/';
    }
  }

  predicate LastOfClass(c: Config, name: string, i: nat) {
    && HasPool(c, name, i)
    && forall j :: i < j < |c.templates[name].pools| ==>
         c.templates[name].pools[j].resourceClass != c.templates[name].pools[i].resourceClass
  }

  // Without an overlap the keys are one to one with the (template, class) pairs,
  lemma KeysAreOneToOne(c: Config, name: string, i: nat, name': string, j: nat)
    requires !Overlap(c) && HasPool(c, name, i) && HasPool(c, name', j)
    ensures KeyOf(c, name, i) == KeyOf(c, name', j) <==>
            name == name' && PoolOf(c, name, i).resourceClass == PoolOf(c, name', j).resourceClass
  {
    assert !Overlaps(c, name, i, name', j) && !Overlaps(c, name', j, name, i);
    KeysEqualExactly(name, PoolOf(c, name, i).resourceClass, name', PoolOf(c, name', j).resourceClass);
  }

  // and a repeated pair takes its last entry, in whatever order the templates
  // come up.
  lemma LastEntryWins(c: Config, m: map<string, Workload>, name: string, i: nat)
    requires !Overlap(c) && Flattening(c, m) && LastOfClass(c, name, i)
    ensures KeyOf(c, name, i) in m
    ensures m[KeyOf(c, name, i)] == WorkloadOf(c.templates[name], PoolOf(c, name, i))
    ensures Takes(m[KeyOf(c, name, i)], c.templates[name], c.templates[name].pools[i])
  {
    var k := KeyOf(c, name, i);
    var x, j: nat :| Decides(c, m, k, x, j);
    KeysAreOneToOne(c, name, i, x, j);
    assert PoolOf(c, name, j).resourceClass == PoolOf(c, name, i).resourceClass;
    assert HasPool(c, x, i) && KeyOf(c, x, i) == k;
    assert j == i;
  }

  lemma SameEntry(c: Config, m: map<string, Workload>, m': map<string, Workload>, k: string)
    requires !Overlap(c) && Flattening(c, m) && Flattening(c, m') && k in m
    ensures k in m' && m'[k] == m[k]
  {
    var name, i: nat :| Decides(c, m, k, name, i);
    forall j | i < j < |c.templates[name].pools|
      ensures c.templates[name].pools[j].resourceClass != c.templates[name].pools[i].resourceClass
    {
      assert KeyOf(c, name, j) != k;
    }
    LastEntryWins(c, m', name, i);
  }

  lemma FlatteningIsUnique(c: Config, m: map<string, Workload>, m': map<string, Workload>)
    requires !Overlap(c) && Flattening(c, m) && Flattening(c, m')
    ensures m == m'
  {
    hide Overlap, Flattening;
    forall k | k in m ensures k in m' && m[k] == m'[k] {
      SameEntry(c, m, m', k);
    }
    forall k | k in m' ensures k in m && m[k] == m'[k] {
      SameEntry(c, m', m, k);
    }
  }

  // ---- when the order matters --------------------------------------------

  // The last pool of a template on the key of its i-th.
  lemma {:induction false} LastWriter(c: Config, name: string, i: nat, n: nat) returns (last: nat)
    requires HasPool(c, name, i) && i < n <= |c.templates[name].pools|
    ensures WritesLast(c, name, last, n, KeyOf(c, name, i))
    ensures PoolOf(c, name, last).resourceClass == PoolOf(c, name, i).resourceClass
    decreases n
  {
    if n == i + 1 {
      last := i;
    } else if KeyOf(c, name, n - 1) == KeyOf(c, name, i) {
      last := n - 1;
      SameName(name, PoolOf(c, name, last).resourceClass, PoolOf(c, name, i).resourceClass);
    } else {
      last := LastWriter(c, name, i, n - 1);
    }
  }

  lemma SameName(name: string, rc: string, rc': string)
    requires Key(name, rc) == Key(name, rc')
    ensures rc == rc'
  {
    assert rc == Key(name, rc)[|name| + 1..] && rc' == Key(name, rc')[|name| + 1..];
  }

  ghost function Keys(c: Config): set<string> {
    set name, i | name in c.templates && 0 <= i < |c.templates[name].pools| :: KeyOf(c, name, i)
  }

  ghost predicate May(c: Config, k: string, w: Workload) {
    exists name, i: nat ::
      && HasPool(c, name, i) && WritesLast(c, name, i, |c.templates[name].pools|, k)
      && w == WorkloadOf(c.templates[name], PoolOf(c, name, i))
  }

  lemma SomeMay(c: Config, k: string)
    requires k in Keys(c)
    ensures exists w :: May(c, k, w)
  {
    var name, i :| name in c.templates && 0 <= i < |c.templates[name].pools| && KeyOf(c, name, i) == k;
    var last := LastWriter(c, name, i, |c.templates[name].pools|);
    assert May(c, k, WorkloadOf(c.templates[name], PoolOf(c, name, last)));
  }

  ghost function Choose(c: Config, k: string): (w: Workload)
    ensures k in Keys(c) ==> May(c, k, w)
  {
    if k in Keys(c) then
      SomeMay(c, k);
      var w :| May(c, k, w);
      w
    else Workload("", "", 0, 0, false, "")
  }

  lemma SomeFlattening(c: Config) returns (m: map<string, Workload>)
    ensures Flattening(c, m) && m.Keys == Keys(c)
  {
    m := map k | k in Keys(c) :: Choose(c, k);
    forall k | k in m ensures exists name, i: nat :: Decides(c, m, k, name, i) {
      var name, i: nat :| HasPool(c, name, i) && WritesLast(c, name, i, |c.templates[name].pools|, k)
                          && m[k] == WorkloadOf(c.templates[name], PoolOf(c, name, i));
      assert Decides(c, m, k, name, i);
    }
  }

  // The last word on one key may be changed for that of another template.
  lemma Rewritten(c: Config, m: map<string, Workload>, name: string, i: nat, k: string)
    returns (m': map<string, Workload>)
    requires Flattening(c, m) && HasPool(c, name, i) && KeyOf(c, name, i) == k
    ensures Flattening(c, m') && k in m' && m'[k].resourceClass == PoolOf(c, name, i).resourceClass
  {
    var last := LastWriter(c, name, i, |c.templates[name].pools|);
    m' := m[k := WorkloadOf(c.templates[name], PoolOf(c, name, last))];
    forall x | x in m' ensures exists y, j: nat :: Decides(c, m', x, y, j) {
      if x == k {
        assert Decides(c, m', x, name, last);
      } else {
        var y, j: nat :| Decides(c, m, x, y, j);
        assert Decides(c, m', x, y, j);
      }
    }
  }

  // With an overlap two orders of the templates give different workloads.
  lemma OverlapGivesTwo(c: Config) returns (m: map<string, Workload>, m': map<string, Workload>)
    requires Overlap(c)
    ensures Flattening(c, m) && Flattening(c, m') && m != m'
  {
    var name, i: nat, name', j: nat :| Overlaps(c, name, i, name', j);
    SharesKey(name, PoolOf(c, name, i).resourceClass, name', PoolOf(c, name', j).resourceClass);
    var k := KeyOf(c, name, i);
    var z := SomeFlattening(c);
    hide Flattening;
    m := Rewritten(c, z, name, i, k);
    m' := Rewritten(c, z, name', j, k);
  }

  // The flattening does not depend on the order of the templates if and only if
  // no two pools overlap.
  lemma UniqueExactly(c: Config)
    ensures (forall m, m' :: Flattening(c, m) && Flattening(c, m') ==> m == m') <==> !Overlap(c)
  {
    hide Flattening, Overlap;
    if Overlap(c) {
      var m, m' := OverlapGivesTwo(c);
    } else {
      forall m, m' | Flattening(c, m) && Flattening(c, m') ensures m == m' {
        FlatteningIsUnique(c, m, m');
      }
    }
  }

  const SLASHED := Config("runsc", "none", "", "", ["c", "b/c"], map[
    "a/b" := Template("one", "ckpt", [PoolConfig("c", 1, 0, true)]),
    "a" := Template("two", "ckpt", [PoolConfig("b/c", 1, 0, true)])])

  // An accepted configuration whose one key belongs to whichever template comes
  // up last.
  lemma SlashesCollide() returns (m: map<string, Workload>, m': map<string, Workload>)
    ensures Sound(SLASHED) && Flattening(SLASHED, m) && Flattening(SLASHED, m') && m != m'
  {
    SlashedIsSound();
    assert "a/b" == "a" + "/" + "b" && "b/c" == "b" + "/" + "c";
    assert Shares("a/b", "c", "a", "b/c");
    assert Overlaps(SLASHED, "a/b", 0, "a", 0);
    m, m' := OverlapGivesTwo(SLASHED);
  }

  lemma SlashedIsSound()
    ensures Sound(SLASHED)
  {
    assert "a" in SLASHED.templates;
    forall name | name in SLASHED.templates ensures TemplateSound(SLASHED, name) {
      assert |SLASHED.templates[name].pools| == 1;
      assert SLASHED.resourceClasses[0] == "c" && SLASHED.resourceClasses[1] == "b/c";
      assert PoolSound(SLASHED, name, 0);
    }
    SoundByParts(SLASHED);
  }

  // What one pool of the transition system takes from a workload.
  predicate Configures(w: Workload, p: Protocol.Params) {
    && p.poolSize == w.poolSize && p.maxPending == w.maxPending
    && p.preRestore == w.preRestore && p.checkpoint == w.checkpoint
  }

  // An accepted configuration gives usable pools: at least one sentry, a queue
  // that admits a caller and is the configured one, a declared class.
  lemma AcceptedConfigsAreUsable(c: Config, m: map<string, Workload>, k: string, p: Protocol.Params)
    requires Sound(c) && Flattening(c, m) && k in m
    ensures m[k].poolSize >= 1 && m[k].maxPending >= 1
    ensures m[k].resourceClass in c.resourceClasses && m[k].rootfs != "" && m[k].checkpoint != ""
    ensures m[k].resourceClass != ""
    ensures Configures(m[k], p) ==> Protocol.QueueLimit(p) == m[k].maxPending
  {
    var name, i: nat :| Decides(c, m, k, name, i);
    assert !Has(c, BadPoolSize(name, i)) && !Has(c, UnknownClass(name, i));
    assert !Has(c, NoRootfs(name)) && !Has(c, NoCheckpoint(name)) && !Has(c, NoClass(name, i));
  }

  // It has at least one pool to start.
  lemma AcceptedConfigsHavePools(c: Config, m: map<string, Workload>)
    requires Sound(c) && Flattening(c, m)
    ensures m != map[]
  {
    assert !Has(c, NoTemplates);
    assert |c.templates.Keys| != 0;
    var name :| name in c.templates.Keys;
    assert !Has(c, NoPools(name));
    assert HasPool(c, name, 0);
    assert KeyOf(c, name, 0) in m;
  }
}
