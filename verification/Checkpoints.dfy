/** Checkpoints of deployments, merged from the scripts that made them. */
module Checkpoints {
  datatype AsaInfo = AsaInfo(assetIndex: nat, data: string)
  datatype AppInfo = AppInfo(appID: nat, timestamp: nat, data: string)
  datatype LsigInfo = LsigInfo(data: string)

  datatype Checkpoint = Checkpoint(
    timestamp: int,
    metadata: map<string, string>,
    asa: map<string, AsaInfo>,
    app: map<string, map<nat, AppInfo>>,
    dLsig: map<string, LsigInfo>)

  /** One checkpoint per network. */
  type Networks = map<string, Checkpoint>

  function Names(c: Checkpoint): set<string> {
    c.asa.Keys + c.app.Keys + c.dLsig.Keys
  }

  function NamesOn(cps: Networks, net: string): set<string> {
    if net in cps then Names(cps[net]) else {}
  }

  ghost predicate Mentions(cp: Networks, name: string) {
    exists net :: net in cp && name in Names(cp[net])
  }

  // ----- merging two checkpoints of one network -----

  /** The test made for each asset and application name of the checkpoint to append: a name that is
      an asset already is compared as an asset, and only otherwise as an application. */
  predicate Clash(orig: Checkpoint, append: Checkpoint, name: string) {
    if name in orig.asa then name !in append.asa || orig.asa[name] != append.asa[name]
    else name in orig.app && (name !in append.app || orig.app[name] != append.app[name])
  }

  predicate Mergeable(orig: Checkpoint, append: Checkpoint) {
    forall name :: name in append.asa.Keys + append.app.Keys ==> !Clash(orig, append, name)
  }

  function Merged(orig: Checkpoint, append: Checkpoint): Checkpoint {
    Checkpoint(append.timestamp, orig.metadata + append.metadata,
               orig.asa + append.asa, orig.app + append.app, orig.dLsig + append.dLsig)
  }

  /** No asset of the original is lost or changed. */
  lemma MergeKeepsAssets(orig: Checkpoint, append: Checkpoint, name: string)
    requires Mergeable(orig, append) && name in orig.asa
    ensures name in Merged(orig, append).asa && Merged(orig, append).asa[name] == orig.asa[name]
  {
    if name in append.asa {
      assert name in append.asa.Keys + append.app.Keys;
      assert !Clash(orig, append, name);
    }
  }

  /** An application of the original is changed exactly when its name is also an asset of the
      original and the appended checkpoint has another application under it. */
  lemma MergeKeepsAppIff(orig: Checkpoint, append: Checkpoint, name: string)
    requires Mergeable(orig, append) && name in orig.app
    ensures name in Merged(orig, append).app
    ensures Merged(orig, append).app[name] == orig.app[name]
            <==> !(name in orig.asa && name in append.app && append.app[name] != orig.app[name])
  {
    if name in append.app {
      assert name in append.asa.Keys + append.app.Keys;
      assert !Clash(orig, append, name);
    }
  }

  /** Two checkpoints whose merge passes every test and changes an application. */
  lemma MergeCanChangeApp() returns (orig: Checkpoint, append: Checkpoint)
    ensures Mergeable(orig, append) && "dex" in orig.app
    ensures Merged(orig, append).app["dex"] != orig.app["dex"]
  {
    var asa := map["dex" := AsaInfo(9, "")];
    orig := Checkpoint(1, map[], asa, map["dex" := map[1 := AppInfo(10, 1, "")]], map[]);
    append := Checkpoint(2, map[], asa, map["dex" := map[2 := AppInfo(11, 2, "")]], map[]);
    assert 1 in orig.app["dex"] && 1 !in append.app["dex"];
    MergeKeepsAppIff(orig, append, "dex");
  }

  /** For each name of each kind, a merge takes what the appended checkpoint has, and where it has nothing
      keeps what there was. */
  lemma MergeTakesLast(orig: Checkpoint, append: Checkpoint, name: string)
    ensures var m := Merged(orig, append);
            && m.timestamp == append.timestamp
            && (name in m.asa <==> name in orig.asa || name in append.asa)
            && (name in m.app <==> name in orig.app || name in append.app)
            && (name in m.dLsig <==> name in orig.dLsig || name in append.dLsig)
            && (name in m.metadata <==> name in orig.metadata || name in append.metadata)
            && (name in m.asa ==> m.asa[name] == if name in append.asa then append.asa[name] else orig.asa[name])
            && (name in m.app ==> m.app[name] == if name in append.app then append.app[name] else orig.app[name])
            && (name in m.dLsig ==>
                  m.dLsig[name] == if name in append.dLsig then append.dLsig[name] else orig.dLsig[name])
            && (name in m.metadata ==>
                  m.metadata[name] == if name in append.metadata then append.metadata[name] else orig.metadata[name])
  {
  }

  /** Two checkpoints can be merged exactly if every asset of the one whose name the other mentions, as
      an asset or an application, is the same asset there, and every application that is not an asset
      as well is the same application. Logic signatures never stop a merge. */
  lemma MergeableIff(orig: Checkpoint, append: Checkpoint)
    ensures Mergeable(orig, append) <==>
            && (forall name :: name in orig.asa && (name in append.asa || name in append.app) ==>
                  name in append.asa && append.asa[name] == orig.asa[name])
            && (forall name :: name in orig.app && name !in orig.asa && (name in append.asa || name in append.app) ==>
                  name in append.app && append.app[name] == orig.app[name])
  {
    if Mergeable(orig, append) {
      forall name | name in append.asa || name in append.app
        ensures !Clash(orig, append, name)
      {
        assert name in append.asa.Keys + append.app.Keys;
      }
    }
  }

  /** Merging again what was just merged is possible and changes nothing. */
  lemma MergeTwice(orig: Checkpoint, append: Checkpoint)
    requires Mergeable(orig, append)
    ensures Mergeable(Merged(orig, append), append)
    ensures Merged(Merged(orig, append), append) == Merged(orig, append)
  {
    forall name | name in append.asa.Keys + append.app.Keys
      ensures !Clash(Merged(orig, append), append, name)
    {
      assert !Clash(orig, append, name);
    }
  }

  lemma MergeWithItself(c: Checkpoint)
    ensures Mergeable(c, c) && Merged(c, c) == c
  {
  }

  // ----- merging on all networks -----

  predicate AllMergeable(target: Networks, cp: Networks) {
    forall net :: net in cp && net in target ==> Mergeable(target[net], cp[net])
  }

  function MergedNet(target: Networks, cp: Networks, net: string): Checkpoint
    requires net in cp
  {
    if net in target then Merged(target[net], cp[net]) else cp[net]
  }

  function MergedOn(target: Networks, cp: Networks, nets: set<string>): Networks
    requires nets <= cp.Keys
  {
    map net | net in target.Keys + nets :: if net in nets then MergedNet(target, cp, net) else target[net]
  }

  function MergedAll(target: Networks, cp: Networks): Networks {
    MergedOn(target, cp, cp.Keys)
  }

  lemma MergedOnOneMore(target: Networks, cp: Networks, nets: set<string>, net: string)
    requires nets <= cp.Keys && net in cp
    ensures MergedOn(target, cp, nets + {net}) == MergedOn(target, cp, nets)[net := MergedNet(target, cp, net)]
  {
  }

  lemma MergedAllNames(target: Networks, cp: Networks, net: string)
    ensures NamesOn(MergedAll(target, cp), net) == NamesOn(target, net) + NamesOn(cp, net)
  {
  }

  lemma MergeAllTwice(target: Networks, cp: Networks)
    requires AllMergeable(target, cp)
    ensures AllMergeable(MergedAll(target, cp), cp)
    ensures MergedAll(MergedAll(target, cp), cp) == MergedAll(target, cp)
  {
    forall net | net in cp
      ensures var once := MergedAll(target, cp)[net]; Mergeable(once, cp[net]) && Merged(once, cp[net]) == once
    {
      if net in target {
        MergeTwice(target[net], cp[net]);
      } else {
        MergeWithItself(cp[net]);
      }
    }
  }

  /** What a merge that throws leaves on the network it stops at: the entries as they were, with the
      time and the metadata of what was to be merged. */
  function Stamped(orig: Checkpoint, append: Checkpoint): Checkpoint {
    orig.(timestamp := append.timestamp, metadata := orig.metadata + append.metadata)
  }

  ghost predicate StopsAt(target: Networks, cp: Networks, nets: set<string>, net: string, out: Networks) {
    && nets <= cp.Keys && net in cp.Keys - nets && net in target && !Mergeable(target[net], cp[net])
    && (forall n :: n in nets && n in target ==> Mergeable(target[n], cp[n]))
    && out == MergedOn(target, cp, nets)[net := Stamped(target[net], cp[net])]
  }

  /** What a merge that throws leaves: some networks are merged completely, it stops at one that clashes,
      and all others are as they were. Which ones come first is open. */
  ghost predicate PartlyMerged(target: Networks, cp: Networks, out: Networks) {
    exists nets, net :: StopsAt(target, cp, nets, net, out)
  }

  // ----- who owns a name -----

  type ScriptMap = map<string, string>

  /** A name is free while no script, or the script with the empty name, is recorded for it. */
  predicate Free(scripts: ScriptMap, name: string) {
    name !in scripts || scripts[name] == ""
  }

  predicate MayClaim(scripts: ScriptMap, name: string, script: string) {
    Free(scripts, name) || scripts[name] == script
  }

  ghost predicate AllClaimable(scripts: ScriptMap, cp: Networks, script: string) {
    forall name :: Mentions(cp, name) ==> MayClaim(scripts, name, script)
  }

  /** `after` is `before` with the names of `cp` given to `script`. */
  ghost predicate Claimed(before: ScriptMap, after: ScriptMap, cp: Networks, script: string) {
    && (forall name :: name in after <==> name in before || Mentions(cp, name))
    && (forall name :: name in after ==> after[name] == if Mentions(cp, name) then script else before[name])
  }

  /** What a claim that throws leaves: names of `cp` that were free may have gone to `script`, and every
      other name is as it was. */
  ghost predicate PartlyClaimed(before: ScriptMap, after: ScriptMap, cp: Networks, script: string) {
    && (forall name :: name in before ==> name in after)
    && (forall name :: name in after ==>
          || (name in before && after[name] == before[name])
          || (Mentions(cp, name) && Free(before, name) && after[name] == script))
  }

  // ----- the repository -----

  datatype Repo = Repo(stripped: Networks, preceding: Networks, all: Networks, scripts: ScriptMap)

  /** A successful merge into the global view. */
  ghost predicate MergesToGlobal(r: Repo, cp: Networks, script: string, r': Repo) {
    && AllClaimable(r.scripts, cp, script) && AllMergeable(r.all, cp)
    && r'.all == MergedAll(r.all, cp) && Claimed(r.scripts, r'.scripts, cp, script)
    && r'.stripped == r.stripped && r'.preceding == r.preceding
  }

  /** A successful merge of the checkpoint of a script about to run. */
  ghost predicate Merges(r: Repo, cp: Networks, script: string, r': Repo) {
    && AllClaimable(r.scripts, cp, script) && AllMergeable(r.all, cp) && AllMergeable(r.preceding, cp)
    && r'.all == MergedAll(r.all, cp) && Claimed(r.scripts, r'.scripts, cp, script)
    && r'.stripped == cp && r'.preceding == MergedAll(r.preceding, cp)
  }

  datatype Entry = Asa(info: AsaInfo) | Ssc(app: AppInfo) | Lsig(lsig: LsigInfo)

  const NoCheckpoint := Checkpoint(0, map[], map[], map[], map[])

  function Entered(c: Checkpoint, name: string, e: Entry): Checkpoint {
    match e
    case Asa(info) => c.(asa := c.asa[name := info])
    case Ssc(app) =>
      var old' := if name in c.app then c.app[name] else map[];
      c.(app := c.app[name := old'[app.timestamp := app]])
    case Lsig(lsig) => c.(dLsig := c.dLsig[name := lsig])
  }

  /** A new checkpoint is made for a network without one; its time is not modelled. */
  function Registered(cps: Networks, net: string, name: string, e: Entry): Networks {
    cps[net := Entered(if net in cps then cps[net] else NoCheckpoint, name, e)]
  }

  function Register(r: Repo, net: string, name: string, e: Entry): Repo {
    r.(preceding := Registered(r.preceding, net, name, e),
       stripped := Registered(r.stripped, net, name, e),
       all := Registered(r.all, net, name, e))
  }

  lemma RegisteredNames(cps: Networks, net: string, name: string, e: Entry, other: string)
    ensures NamesOn(Registered(cps, net, name, e), other)
            == NamesOn(cps, other) + if other == net then {name} else {}
  {
  }

  /** The checkpoint of a network, an empty one if there is none. */
  function CheckpointOf(cps: Networks, net: string): Checkpoint {
    if net in cps then cps[net] else Checkpoint(0, map[], map[], map[], map[])
  }

  /** A registration is seen under its name and kind, in a view of its network; an application joins the
      other ones deployed under the name. All other entries, kinds and networks are as they were. */
  lemma RegisteredIsSeen(cps: Networks, net: string, name: string, e: Entry)
    ensures var after, c := Registered(cps, net, name, e), CheckpointOf(cps, net);
            && net in after && after == cps[net := after[net]]
            && after[net].timestamp == c.timestamp && after[net].metadata == c.metadata
            && after[net].asa == (if e.Asa? then c.asa[name := e.info] else c.asa)
            && after[net].dLsig == (if e.Lsig? then c.dLsig[name := e.lsig] else c.dLsig)
            && after[net].app.Keys == c.app.Keys + (if e.Ssc? then {name} else {})
            && (forall other :: other in c.app && (e.Ssc? ==> other != name) ==>
                  after[net].app[other] == c.app[other])
            && (e.Ssc? ==>
                  && e.app.timestamp in after[net].app[name]
                  && after[net].app[name][e.app.timestamp] == e.app
                  && after[net].app[name] - {e.app.timestamp}
                     == (if name in c.app then c.app[name] else map[]) - {e.app.timestamp})
  {
    if e.Ssc? {
      var c := CheckpointOf(cps, net);
      var had := if name in c.app then c.app[name] else map[];
      assert had[e.app.timestamp := e.app] - {e.app.timestamp} == had - {e.app.timestamp};
    }
  }

  // ----- runs -----

  datatype Event =
    | Merge(cp: Networks, script: string)
    | MergeToGlobal(cp: Networks, script: string)
    | Registration(net: string, name: string, entry: Entry)

  ghost predicate Step(r: Repo, e: Event, r': Repo) {
    match e
    case Merge(cp, script) => Merges(r, cp, script, r')
    case MergeToGlobal(cp, script) => MergesToGlobal(r, cp, script, r')
    case Registration(net, name, entry) => r' == Register(r, net, name, entry)
  }

  /** A run in which nothing throws: the repositories before, between and after the events. */
  ghost predicate IsRun(events: seq<Event>, repos: seq<Repo>) {
    |repos| == |events| + 1 && forall i :: 0 <= i < |events| ==> Step(repos[i], events[i], repos[i + 1])
  }

  predicate IsMerge(e: Event) {
    e.Merge? || e.MergeToGlobal?
  }

  /** What is known before a script runs is known globally. */
  ghost predicate PrecedingWithinAll(r: Repo) {
    forall net :: NamesOn(r.preceding, net) <= NamesOn(r.all, net)
  }

  lemma StepKeepsPreceding(r: Repo, e: Event, r': Repo)
    requires Step(r, e, r') && PrecedingWithinAll(r)
    ensures PrecedingWithinAll(r')
    ensures forall net :: NamesOn(r.all, net) <= NamesOn(r'.all, net)
  {
    forall net
      ensures NamesOn(r'.preceding, net) <= NamesOn(r'.all, net) && NamesOn(r.all, net) <= NamesOn(r'.all, net)
    {
      match e
      case Merge(cp, _) =>
        MergedAllNames(r.all, cp, net);
        MergedAllNames(r.preceding, cp, net);
      case MergeToGlobal(cp, _) =>
        MergedAllNames(r.all, cp, net);
      case Registration(n, name, entry) =>
        RegisteredNames(r.all, n, name, entry, net);
        RegisteredNames(r.preceding, n, name, entry, net);
    }
  }

  lemma {:induction false} RunKeepsPreceding(events: seq<Event>, repos: seq<Repo>)
    requires IsRun(events, repos) && PrecedingWithinAll(repos[0])
    ensures forall i :: 0 <= i < |repos| ==> PrecedingWithinAll(repos[i])
    decreases |events|
  {
    if events != [] {
      StepKeepsPreceding(repos[0], events[0], repos[1]);
      RunKeepsPreceding(events[1..], repos[1..]);
      forall i | 0 <= i < |repos|
        ensures PrecedingWithinAll(repos[i])
      {
        assert i > 0 ==> repos[i] == repos[1..][i - 1];
      }
    }
  }

  ghost predicate Owns(r: Repo, script: string, name: string) {
    name in r.scripts && r.scripts[name] == script
  }

  /** Once a script owns a name it keeps it. */
  lemma {:induction false} OwnershipLasts(
      events: seq<Event>, repos: seq<Repo>, i: nat, j: nat, script: string, name: string)
    requires IsRun(events, repos) && i <= j < |repos| && script != ""
    requires Owns(repos[i], script, name)
    ensures Owns(repos[j], script, name)
    decreases j - i
  {
    if i < j {
      assert Step(repos[i], events[i], repos[i + 1]);
      OwnershipLasts(events, repos, i + 1, j, script, name);
    }
  }

  /** In a run in which nothing throws, every name of a merged checkpoint is owned by its script from
      then on, so no two scripts merge checkpoints with a name in common. */
  lemma SingleOwner(events: seq<Event>, repos: seq<Repo>, i: nat, j: nat, name: string)
    requires IsRun(events, repos) && i <= j < |events|
    requires IsMerge(events[i]) && Mentions(events[i].cp, name) && events[i].script != ""
    ensures Owns(repos[j + 1], events[i].script, name)
    ensures IsMerge(events[j]) && Mentions(events[j].cp, name) ==> events[j].script == events[i].script
  {
    assert Step(repos[i], events[i], repos[i + 1]);
    OwnershipLasts(events, repos, i + 1, j + 1, events[i].script, name);
    if i < j {
      OwnershipLasts(events, repos, i + 1, j, events[i].script, name);
      assert Step(repos[j], events[j], repos[j + 1]);
    }
  }

  /** For a script with the empty name that fails: after a merge that mentions a name, nobody but the
      merging script may claim it exactly when that script has a name itself. */
  lemma ExclusiveIff(r: Repo, e: Event, r': Repo, name: string)
    requires Step(r, e, r') && IsMerge(e) && Mentions(e.cp, name)
    ensures (forall other :: MayClaim(r'.scripts, name, other) ==> other == e.script) <==> e.script != ""
  {
    assert name in r'.scripts && r'.scripts[name] == e.script;
    OnlyOwnerIff(r'.scripts, name);
  }

  lemma OnlyOwnerIff(scripts: ScriptMap, name: string)
    requires name in scripts
    ensures (forall other :: MayClaim(scripts, name, other) ==> other == scripts[name]) <==> scripts[name] != ""
  {
    if scripts[name] == "" {
      assert MayClaim(scripts, name, "deploy.js");
    }
  }

  /** A run in which two scripts, the first without a name, merge a checkpoint with the same asset. */
  lemma NamelessOwnsNothing() returns (events: seq<Event>, repos: seq<Repo>)
    ensures IsRun(events, repos) && |events| == 2 && IsMerge(events[0]) && IsMerge(events[1])
    ensures Mentions(events[0].cp, "gold") && Mentions(events[1].cp, "gold")
    ensures events[0].script == "" && events[1].script == "deploy.js"
  {
    var cp := map["main" := NoCheckpoint.(asa := map["gold" := AsaInfo(9, "")])];
    assert cp["main"].asa.Keys == {"gold"} && Names(cp["main"]) == {"gold"};
    assert "gold" in Names(cp["main"]);
    assert Mentions(cp, "gold") && forall name :: Mentions(cp, name) <==> name == "gold";
    MergeWithItself(cp["main"]);
    assert MergedAll(map[], cp) == cp && MergedAll(cp, cp) == cp;
    events := [MergeToGlobal(cp, ""), MergeToGlobal(cp, "deploy.js")];
    repos := [Repo(map[], map[], map[], map[]),
              Repo(map[], map[], cp, map["gold" := ""]),
              Repo(map[], map[], cp, map["gold" := "deploy.js"])];
    assert Step(repos[0], events[0], repos[1]) && Step(repos[1], events[1], repos[2]);
  }

  ghost predicate HasAsset(r: Repo, net: string, name: string, info: AsaInfo) {
    net in r.all && name in r.all[net].asa && r.all[net].asa[name] == info
  }

  lemma MergeStepKeepsAsset(r: Repo, e: Event, r': Repo, net: string, name: string, info: AsaInfo)
    requires Step(r, e, r') && IsMerge(e) && HasAsset(r, net, name, info)
    ensures HasAsset(r', net, name, info)
  {
    if net in e.cp {
      MergeKeepsAssets(r.all[net], e.cp[net], name);
    }
  }

  /** No asset of an earlier merge is lost or changed by the merges that follow. */
  lemma {:induction false} AssetsLast(
      events: seq<Event>, repos: seq<Repo>, i: nat, j: nat, net: string, name: string, info: AsaInfo)
    requires IsRun(events, repos) && i <= j < |repos| && HasAsset(repos[i], net, name, info)
    requires forall k :: i <= k < j ==> IsMerge(events[k])
    ensures HasAsset(repos[j], net, name, info)
    decreases j - i
  {
    if i < j {
      assert Step(repos[i], events[i], repos[i + 1]);
      MergeStepKeepsAsset(repos[i], events[i], repos[i + 1], net, name, info);
      AssetsLast(events, repos, i + 1, j, net, name, info);
    }
  }

  ghost predicate HasApp(r: Repo, net: string, name: string, apps: map<nat, AppInfo>) {
    net in r.all && name in r.all[net].app && r.all[net].app[name] == apps
  }

  /** Nor is an application lost by them, whatever else has its name. */
  lemma {:induction false} AppsStay(
      events: seq<Event>, repos: seq<Repo>, i: nat, j: nat, net: string, name: string)
    requires IsRun(events, repos) && i <= j < |repos|
    requires net in repos[i].all && name in repos[i].all[net].app
    requires forall k :: i <= k < j ==> IsMerge(events[k])
    ensures net in repos[j].all && name in repos[j].all[net].app
    decreases j - i
  {
    if i < j {
      assert Step(repos[i], events[i], repos[i + 1]);
      if net in events[i].cp {
        MergeKeepsAppIff(repos[i].all[net], events[i].cp[net], name);
      }
      AppsStay(events, repos, i + 1, j, net, name);
    }
  }

  /** And it is not changed either while its name is no asset as well. */
  lemma {:induction false} AppsLast(
      events: seq<Event>, repos: seq<Repo>, i: nat, j: nat, net: string, name: string, apps: map<nat, AppInfo>)
    requires IsRun(events, repos) && i <= j < |repos| && HasApp(repos[i], net, name, apps)
    requires forall k :: i <= k < j ==> IsMerge(events[k]) && net in repos[k].all && name !in repos[k].all[net].asa
    ensures HasApp(repos[j], net, name, apps)
    decreases j - i
  {
    if i < j {
      assert Step(repos[i], events[i], repos[i + 1]);
      if net in events[i].cp {
        MergeKeepsAppIff(repos[i].all[net], events[i].cp[net], name);
      }
      AppsLast(events, repos, i + 1, j, net, name, apps);
    }
  }

  /** Merging a checkpoint for its script a second time cannot throw and leaves the global view and
      the owners as they are. */
  lemma MergeToGlobalTwice(r: Repo, cp: Networks, script: string, r': Repo)
    requires MergesToGlobal(r, cp, script, r')
    ensures MergesToGlobal(r', cp, script, r')
  {
    MergeAllTwice(r.all, cp);
  }
}

/** The repository object. */
module CheckpointRepos {
  import opened Checkpoints

  class CheckpointRepo {
    var strippedCP: Networks
    var precedingCP: Networks
    var allCPs: Networks
    var scriptMap: ScriptMap

    constructor ()
      ensures View() == Repo(map[], map[], map[], map[])
    {
      strippedCP, precedingCP, allCPs, scriptMap := map[], map[], map[], map[];
    }

    ghost function View(): Repo
      reads this
    {
      Repo(strippedCP, precedingCP, allCPs, scriptMap)
    }

    /** Appends a checkpoint for one network. When it throws, the original has the time and the
        metadata of what was to be appended, and its entries as they were. */
    static method AppendToCheckpoint(target: Networks, net: string, append: Checkpoint)
      returns (out: Networks, ok: bool)
      ensures ok <==> (net in target ==> Mergeable(target[net], append))
      ensures ok ==> out == target[net := if net in target then Merged(target[net], append) else append]
      ensures !ok ==> out == target[net := Stamped(target[net], append)]
    {
      if net !in target {
        return target[net := append], true;
      }
      var orig := target[net];
      var stamped := Stamped(orig, append);
      out := target[net := stamped];
      var todo := append.asa.Keys + append.app.Keys;
      while todo != {}
        invariant todo <= append.asa.Keys + append.app.Keys
        invariant forall name :: name in append.asa.Keys + append.app.Keys - todo ==> !Clash(orig, append, name)
      {
        var name :| name in todo;
        if Clash(stamped, append, name) {
          assert Clash(orig, append, name);
          return out, false;
        }
        todo := todo - {name};
      }
      return out[net := stamped.(asa := orig.asa + append.asa, app := orig.app + append.app,
                                 dLsig := orig.dLsig + append.dLsig)], true;
    }

    /** Appends the checkpoints of all networks, which do not touch each other. */
    static method MergeTo(target: Networks, cp: Networks) returns (out: Networks, ok: bool)
      ensures ok <==> AllMergeable(target, cp)
      ensures ok ==> out == MergedAll(target, cp)
      ensures !ok ==> PartlyMerged(target, cp, out)
    {
      out, ok := target, true;
      var todo := cp.Keys;
      assert out == MergedOn(target, cp, cp.Keys - todo);
      while todo != {}
        invariant todo <= cp.Keys
        invariant out == MergedOn(target, cp, cp.Keys - todo)
        invariant forall net :: net in cp.Keys - todo && net in target ==> Mergeable(target[net], cp[net])
      {
        var net :| net in todo;
        assert net in out <==> net in target;
        assert net in target ==> out[net] == target[net];
        MergedOnOneMore(target, cp, cp.Keys - todo, net);
        assert cp.Keys - todo + {net} == cp.Keys - (todo - {net});
        out, ok := AppendToCheckpoint(out, net, cp[net]);
        if !ok {
          assert StopsAt(target, cp, cp.Keys - todo, net, out);
          return;
        }
        todo := todo - {net};
      }
      assert cp.Keys - todo == cp.Keys;
      ok := true;
    }

    /** Gives names to a script; stops at the first one another script owns. */
    method ClaimNames(names: set<string>, script: string) returns (ok: bool)
      modifies this`scriptMap
      ensures ok <==> forall name :: name in names ==> MayClaim(old(scriptMap), name, script)
      ensures ok ==> scriptMap.Keys == old(scriptMap).Keys + names
      ensures ok ==> forall name :: name in scriptMap ==>
                       scriptMap[name] == if name in names then script else old(scriptMap)[name]
      ensures forall name :: name in old(scriptMap) ==> name in scriptMap
      ensures forall name :: name in scriptMap ==>
                || (name in old(scriptMap) && scriptMap[name] == old(scriptMap)[name])
                || (name in names && Free(old(scriptMap), name) && scriptMap[name] == script)
    {
      var todo := names;
      while todo != {}
        invariant todo <= names
        invariant forall name :: name in names - todo ==> MayClaim(old(scriptMap), name, script)
        invariant scriptMap.Keys == old(scriptMap).Keys + (names - todo)
        invariant forall name :: name in scriptMap ==>
                    scriptMap[name] == if name in names - todo then script else old(scriptMap)[name]
      {
        var name :| name in todo;
        if Free(scriptMap, name) {
          scriptMap := scriptMap[name := script];
        } else if scriptMap[name] != script {
          return false;
        }
        todo := todo - {name};
      }
      return true;
    }

    /** Gives all names of all networks to a script. */
    method ClaimAll(cp: Networks, script: string) returns (ok: bool)
      modifies this`scriptMap
      ensures ok <==> AllClaimable(old(scriptMap), cp, script)
      ensures ok ==> Claimed(old(scriptMap), scriptMap, cp, script)
      ensures PartlyClaimed(old(scriptMap), scriptMap, cp, script)
    {
      var todo := cp.Keys;
      ghost var done: set<string> := {};
      while todo != {}
        invariant todo <= cp.Keys
        invariant forall name :: name in done <==> exists net :: net in cp && net !in todo && name in Names(cp[net])
        invariant forall name :: name in done ==> MayClaim(old(scriptMap), name, script)
        invariant scriptMap.Keys == old(scriptMap).Keys + done
        invariant forall name :: name in scriptMap ==>
                    scriptMap[name] == if name in done then script else old(scriptMap)[name]
      {
        var net :| net in todo;
        var names := Names(cp[net]);
        ok := ClaimNames(names, script);
        if !ok {
          ghost var name :| name in names && name !in done && !MayClaim(old(scriptMap), name, script);
          assert Mentions(cp, name);
          return;
        }
        todo, done := todo - {net}, done + names;
      }
      assert forall name :: name in done <==> Mentions(cp, name);
      return true;
    }

    /** Merges into the global view. A name another script owns stops it before that view changes. */
    method MergeToGlobal(cp: Networks, scriptName: string) returns (ok: bool)
      modifies this`scriptMap, this`allCPs
      ensures ok <==> AllClaimable(old(scriptMap), cp, scriptName) && AllMergeable(old(allCPs), cp)
      ensures ok ==> MergesToGlobal(old(View()), cp, scriptName, View())
      ensures PartlyClaimed(old(scriptMap), scriptMap, cp, scriptName)
      ensures !AllClaimable(old(scriptMap), cp, scriptName) ==> allCPs == old(allCPs)
      ensures AllClaimable(old(scriptMap), cp, scriptName) ==> Claimed(old(scriptMap), scriptMap, cp, scriptName)
      ensures AllClaimable(old(scriptMap), cp, scriptName) && !AllMergeable(old(allCPs), cp) ==>
                PartlyMerged(old(allCPs), cp, allCPs)
    {
      ok := ClaimAll(cp, scriptName);
      if ok {
        allCPs, ok := MergeTo(allCPs, cp);
      }
    }

    /** Takes over the checkpoint of the script that runs next. */
    method Merge(cp: Networks, scriptName: string) returns (ok: bool)
      modifies this
      ensures ok <==> && AllMergeable(old(precedingCP), cp)
                      && AllClaimable(old(scriptMap), cp, scriptName) && AllMergeable(old(allCPs), cp)
      ensures ok ==> Merges(old(View()), cp, scriptName, View())
      ensures strippedCP == cp
      ensures if AllMergeable(old(precedingCP), cp) then precedingCP == MergedAll(old(precedingCP), cp)
              else PartlyMerged(old(precedingCP), cp, precedingCP)
                   && scriptMap == old(scriptMap) && allCPs == old(allCPs)
      ensures PartlyClaimed(old(scriptMap), scriptMap, cp, scriptName)
      ensures !AllClaimable(old(scriptMap), cp, scriptName) ==> allCPs == old(allCPs)
      ensures AllMergeable(old(precedingCP), cp) && AllClaimable(old(scriptMap), cp, scriptName) ==>
                Claimed(old(scriptMap), scriptMap, cp, scriptName)
                && (!AllMergeable(old(allCPs), cp) ==> PartlyMerged(old(allCPs), cp, allCPs))
    {
      strippedCP := cp;
      precedingCP, ok := MergeTo(precedingCP, cp);
      if ok {
        ok := MergeToGlobal(cp, scriptName);
      }
    }

    static method RegisterIn(cps: Networks, net: string, name: string, e: Entry) returns (out: Networks)
      ensures out == Registered(cps, net, name, e)
    {
      out := cps;
      if net !in out {
        out := out[net := NoCheckpoint];
      }
      out := out[net := Entered(out[net], name, e)];
    }

    method RegisterASA(net: string, name: string, info: AsaInfo)
      modifies this
      ensures View() == Register(old(View()), net, name, Asa(info))
    {
      precedingCP := RegisterIn(precedingCP, net, name, Asa(info));
      strippedCP := RegisterIn(strippedCP, net, name, Asa(info));
      allCPs := RegisterIn(allCPs, net, name, Asa(info));
    }

    method RegisterSSC(net: string, name: string, info: AppInfo)
      modifies this
      ensures View() == Register(old(View()), net, name, Ssc(info))
    {
      precedingCP := RegisterIn(precedingCP, net, name, Ssc(info));
      strippedCP := RegisterIn(strippedCP, net, name, Ssc(info));
      allCPs := RegisterIn(allCPs, net, name, Ssc(info));
    }

    method RegisterLsig(net: string, name: string, info: LsigInfo)
      modifies this
      ensures View() == Register(old(View()), net, name, Lsig(info))
    {
      precedingCP := RegisterIn(precedingCP, net, name, Lsig(info));
      strippedCP := RegisterIn(strippedCP, net, name, Lsig(info));
      allCPs := RegisterIn(allCPs, net, name, Lsig(info));
    }

    /** A name is defined exactly when some entry of the global view has it. */
    method IsDefined(net: string, name: string) returns (r: bool)
      ensures r <==> name in NamesOn(allCPs, net)
    {
      return net in allCPs
        && (name in allCPs[net].asa || name in allCPs[net].app || name in allCPs[net].dLsig);
    }
  }
}
