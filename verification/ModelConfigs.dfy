/** Creating, changing and deleting model configs (backend/internal/handler/model_config.go). */
module ModelConfigs {
  import opened Wrappers
  import opened Decimal
  import opened Settings

  const MAX_UNIQUE_NAME_ATTEMPTS: nat := 1000

  /** The name itself, and then the name with a number. */
  function Candidate(name: string, i: nat): string {
    if i == 0 then name else name + " (" + Itoa(i) + ")"
  }

  /** The names of the first n configs that have another id. */
  function OtherNames(configs: seq<ModelConfig>, excludeId: string, n: nat): set<string>
    requires n <= |configs|
  {
    if n == 0 then {}
    else OtherNames(configs, excludeId, n - 1) + if configs[n - 1].id != excludeId then {configs[n - 1].name} else {}
  }

  function Others(configs: seq<ModelConfig>, excludeId: string, n: nat): nat
    requires n <= |configs|
  {
    if n == 0 then 0 else Others(configs, excludeId, n - 1) + if configs[n - 1].id != excludeId then 1 else 0
  }

  lemma {:induction false} OtherNamesAre(configs: seq<ModelConfig>, excludeId: string, n: nat, name: string)
    requires n <= |configs|
    ensures name in OtherNames(configs, excludeId, n) <==>
        exists i :: 0 <= i < n && configs[i].id != excludeId && configs[i].name == name
    ensures |OtherNames(configs, excludeId, n)| <= Others(configs, excludeId, n)
  {
    if n == 0 {
    } else {
      OtherNamesAre(configs, excludeId, n - 1, name);
    }
  }

  /** The first candidate that is not taken. */
  ghost predicate FirstFree(name: string, taken: set<string>, u: string) {
    && u !in taken
    && exists i: nat :: i < MAX_UNIQUE_NAME_ATTEMPTS && u == Candidate(name, i) &&
                        forall k: nat :: k < i ==> Candidate(name, k) in taken
  }

  method EnsureUniqueName(name: string, configs: seq<ModelConfig>, excludeId: string) returns (unique: Option<string>)
    ensures var taken := OtherNames(configs, excludeId, |configs|);
            match unique
            case Some(u) => FirstFree(name, taken, u)
            case None => forall i: nat :: i < MAX_UNIQUE_NAME_ATTEMPTS ==> Candidate(name, i) in taken
    ensures name !in OtherNames(configs, excludeId, |configs|) ==> unique == Some(name)
    ensures Others(configs, excludeId, |configs|) < MAX_UNIQUE_NAME_ATTEMPTS ==> unique.Some?
  {
    var existingNames: set<string> := {};
    for n := 0 to |configs|
      invariant existingNames == OtherNames(configs, excludeId, n)
    {
      if configs[n].id != excludeId {
        existingNames := existingNames + {configs[n].name};
      }
    }
    assert Candidate(name, 0) == name;
    if name !in existingNames { return Some(name); }
    for i := 1 to MAX_UNIQUE_NAME_ATTEMPTS
      invariant forall k: nat :: k < i ==> Candidate(name, k) in existingNames
    {
      var candidate := name + " (" + Itoa(i) + ")";
      assert candidate == Candidate(name, i);
      if candidate !in existingNames { return Some(candidate); }
    }
    AllTakenMeansMany(name, configs, excludeId);
    unique := None;
  }

  function Candidates(name: string, n: nat): set<string> {
    if n == 0 then {} else Candidates(name, n - 1) + {Candidate(name, n - 1)}
  }

  lemma CandidatesDiffer(name: string, i: nat, j: nat)
    requires i < j
    ensures Candidate(name, i) != Candidate(name, j)
  {
    if i > 0 && Candidate(name, i) == Candidate(name, j) {
      AffixedInjective(name + " (", ")", i, j);
    }
  }

  lemma {:induction false} CandidatesAre(name: string, n: nat)
    ensures forall c :: c in Candidates(name, n) <==> exists i: nat :: i < n && c == Candidate(name, i)
  {
    if n == 0 {
    } else {
      CandidatesAre(name, n - 1);
    }
  }

  lemma {:induction false} CandidatesCount(name: string, n: nat)
    ensures |Candidates(name, n)| == n
  {
    if n == 0 {
    } else {
      CandidatesCount(name, n - 1);
      CandidatesAre(name, n - 1);
      forall i: nat | i < n - 1
        ensures Candidate(name, i) != Candidate(name, n - 1)
      {
        CandidatesDiffer(name, i, n - 1);
      }
      hide Candidate;
      assert Candidate(name, n - 1) !in Candidates(name, n - 1);
    }
  }

  /** Pigeonhole: a thousand different candidates are taken only by a thousand other configs. */
  lemma AllTakenMeansMany(name: string, configs: seq<ModelConfig>, excludeId: string)
    requires forall i: nat :: i < MAX_UNIQUE_NAME_ATTEMPTS ==>
               Candidate(name, i) in OtherNames(configs, excludeId, |configs|)
    ensures Others(configs, excludeId, |configs|) >= MAX_UNIQUE_NAME_ATTEMPTS
  {
    CandidatesCount(name, MAX_UNIQUE_NAME_ATTEMPTS);
    CandidatesAre(name, MAX_UNIQUE_NAME_ATTEMPTS);
    OtherNamesAre(configs, excludeId, |configs|, name);
    hide Candidate, OtherNames, Candidates;
    var all, taken := Candidates(name, MAX_UNIQUE_NAME_ATTEMPTS), OtherNames(configs, excludeId, |configs|);
    assert all <= taken;
    assert all + (taken - all) == taken;
  }

  // ---- names stay distinct ----

  ghost predicate DistinctNames(configs: seq<ModelConfig>) {
    forall i, j :: 0 <= i < j < |configs| ==> configs[i].name != configs[j].name
  }

  ghost predicate ProperIds(configs: seq<ModelConfig>) {
    && (forall i :: 0 <= i < |configs| ==> configs[i].id != "")
    && forall i, j :: 0 <= i < j < |configs| ==> configs[i].id != configs[j].id
  }

  predicate Carried(configs: seq<ModelConfig>, id: string, name: string) {
    exists i :: 0 <= i < |configs| && configs[i].id == id && configs[i].name == name
  }

  lemma FirstFreeIsOne(name: string, taken: set<string>, u: string, v: string)
    requires FirstFree(name, taken, u) && FirstFree(name, taken, v)
    ensures u == v
  {
    hide Candidate;
    var i: nat :| Candidate(name, i) == u && forall k: nat :: k < i ==> Candidate(name, k) in taken;
    var j: nat :| Candidate(name, j) == v && forall k: nat :: k < j ==> Candidate(name, k) in taken;
    assert i <= j && j <= i;
  }

  /**
   * Creating searches a name among the configs that have an id. With u the first candidate free among those, names
   * stay distinct iff no config without an id is called u.
   */
  lemma CreateKeepsNamesIff(configs: seq<ModelConfig>, request: ModelConfig, newId: string, u: string)
    requires DistinctNames(configs) && FirstFree(request.name, OtherNames(configs, "", |configs|), u)
    ensures DistinctNames(configs + [request.(id := newId, name := u)]) <==> !Carried(configs, "", u)
  {
    OtherNamesAre(configs, "", |configs|, u);
    var after := configs + [request.(id := newId, name := u)];
    if i :| 0 <= i < |configs| && configs[i].id == "" && configs[i].name == u {
      assert after[i].name == after[|configs|].name;
    }
  }

  /** One config without an id, and a request for its name: the search takes the name for free. */
  lemma IdlessNameIsTaken(idless: ModelConfig, request: ModelConfig, newId: string)
    requires idless.id == "" && request.name == idless.name
    ensures FirstFree(request.name, OtherNames([idless], "", 1), idless.name)
    ensures !DistinctNames([idless] + [request.(id := newId, name := idless.name)])
  {
    OtherNamesAre([idless], "", 1, idless.name);
    assert Candidate(request.name, 0) == idless.name;
    CreateKeepsNamesIff([idless], request, newId, idless.name);
  }

  /** Another config with the same id has this name. */
  predicate CarriedBeside(configs: seq<ModelConfig>, i: nat, name: string)
    requires i < |configs|
  {
    exists j :: 0 <= j < |configs| && j != i && configs[j].id == configs[i].id && configs[j].name == name
  }

  /**
   * Updating searches a name among the configs with another id. With a name that is free among those, names stay
   * distinct iff no other config with the same id has it.
   */
  lemma UpdateKeepsNamesIff(configs: seq<ModelConfig>, i: nat, cfg: ModelConfig)
    requires i < |configs| && DistinctNames(configs) && cfg.id == configs[i].id
    requires cfg.name !in OtherNames(configs, cfg.id, |configs|)
    ensures DistinctNames(configs[i := cfg]) <==> !CarriedBeside(configs, i, cfg.name)
  {
    OtherNamesAre(configs, cfg.id, |configs|, cfg.name);
    var after := configs[i := cfg];
    if j :| 0 <= j < |configs| && j != i && configs[j].id == configs[i].id && configs[j].name == cfg.name {
      assert after[j].name == after[i].name;
    }
  }

  lemma UpdateKeepsProper(configs: seq<ModelConfig>, i: nat, cfg: ModelConfig)
    requires i < |configs| && Proper(configs) && cfg.id == configs[i].id
    requires cfg.name !in OtherNames(configs, cfg.id, |configs|)
    ensures Proper(configs[i := cfg])
  {
    UpdateKeepsNamesIff(configs, i, cfg);
  }

  /** Two configs without an id, and an update of the first that asks for the name of the second. */
  lemma IdlessUpdateTakesName(a: ModelConfig, b: ModelConfig, request: ModelConfig)
    requires a.id == b.id == request.id == "" && a.name != b.name && request.name == b.name
    ensures DistinctNames([a, b]) && FirstFree(request.name, OtherNames([a, b], "", 2), b.name)
    ensures !DistinctNames([a, b][0 := request])
  {
    OtherNamesAre([a, b], "", 2, b.name);
    assert Candidate(request.name, 0) == b.name;
    assert [a, b][1].name == request.name;
    UpdateKeepsNamesIff([a, b], 0, request);
  }

  /** The configs with another id, in their order. */
  function Without(configs: seq<ModelConfig>, id: string, n: nat): seq<ModelConfig>
    requires n <= |configs|
  {
    if n == 0 then [] else Without(configs, id, n - 1) + if configs[n - 1].id != id then [configs[n - 1]] else []
  }

  lemma {:induction false} WithoutHolds(configs: seq<ModelConfig>, id: string, n: nat)
    requires n <= |configs|
    ensures forall c :: c in Without(configs, id, n) <==> c in configs[..n] && c.id != id
  {
    if n == 0 {
    } else {
      WithoutHolds(configs, id, n - 1);
      assert configs[..n] == configs[..n - 1] + [configs[n - 1]];
    }
  }

  lemma AppendKeepsNames(configs: seq<ModelConfig>, cfg: ModelConfig)
    requires DistinctNames(configs) && forall c :: c in configs ==> c.name != cfg.name
    ensures DistinctNames(configs + [cfg])
  {
  }

  /** Deleting keeps names distinct, whatever the ids. */
  lemma {:induction false} DeleteKeepsNames(configs: seq<ModelConfig>, id: string, n: nat)
    requires n <= |configs| && DistinctNames(configs)
    ensures DistinctNames(Without(configs, id, n))
  {
    if n == 0 {
    } else {
      var rest, last := Without(configs, id, n - 1), configs[n - 1];
      assert forall c :: c in configs[..n - 1] ==> c.name != last.name;
      hide DistinctNames;
      DeleteKeepsNames(configs, id, n - 1);
      WithoutHolds(configs, id, n - 1);
      assert rest + [] == rest;
      if last.id != id { AppendKeepsNames(rest, last); }
    }
  }

  lemma AppendKeepsIds(configs: seq<ModelConfig>, cfg: ModelConfig)
    requires ProperIds(configs) && cfg.id != "" && forall c :: c in configs ==> c.id != cfg.id
    ensures ProperIds(configs + [cfg])
  {
  }

  lemma {:induction false} DeleteKeepsIds(configs: seq<ModelConfig>, id: string, n: nat)
    requires n <= |configs| && ProperIds(configs)
    ensures ProperIds(Without(configs, id, n))
  {
    if n == 0 {
    } else {
      var rest, last := Without(configs, id, n - 1), configs[n - 1];
      assert last.id != "" && forall c :: c in configs[..n - 1] ==> c.id != last.id;
      hide ProperIds;
      DeleteKeepsIds(configs, id, n - 1);
      WithoutHolds(configs, id, n - 1);
      assert rest + [] == rest;
      if last.id != id { AppendKeepsIds(rest, last); }
    }
  }

  // ---- the handlers ----

  /** Unique names, and unique ids that are not empty. */
  ghost predicate Proper(configs: seq<ModelConfig>) {
    DistinctNames(configs) && ProperIds(configs)
  }

  function Loaded(stored: Option<Settings>): Settings {
    match stored case None => DEFAULTS case Some(s) => Normalized(s)
  }

  /** Loading leaves a list that is not empty alone, and an empty one unless there are legacy fields to migrate. */
  lemma LoadedKeeps(s: Settings)
    requires s.configs != [] || !HasLegacyData(s)
    ensures Loaded(Some(s)).configs == s.configs
  {
    NormalizedKeepsConfigs(s);
  }

  /** Without the config; if it was the active one, the first of the others is activated. */
  function AfterDelete(loaded: Settings, id: string): Settings {
    var rest := Without(loaded.configs, id, |loaded.configs|);
    var activeId := if loaded.activeId != id then loaded.activeId else if rest == [] then "" else rest[0].id;
    Derived(loaded.(configs := rest, activeId := activeId))
  }

  class ConfigHandler {
    /** The settings file; None if there is none. */
    var stored: Option<Settings>

    constructor (stored: Option<Settings>)
      ensures this.stored == stored
    {
      this.stored := stored;
    }

    /** `request` is a validated config with its key encrypted; `writes` tells whether the file could be written. */
    method Create(request: ModelConfig, newId: string, writes: bool) returns (ok: bool)
      requires newId != "" && forall c :: c in Loaded(stored).configs ==> c.id != newId
      modifies this
      ensures !ok ==> stored == old(stored)
      ensures writes && |Loaded(old(stored)).configs| < MAX_UNIQUE_NAME_ATTEMPTS ==> ok
      ensures ok ==> exists u: string :: CreatedAs(Loaded(old(stored)), request, newId, u, stored)
      ensures Proper(Loaded(old(stored)).configs) ==> Proper(Loaded(stored).configs)
    {
      var settings := LoadSettings(stored);
      ghost var loaded := settings;
      OthersAtMost(settings.configs, "", |settings.configs|);
      var unique := EnsureUniqueName(request.name, settings.configs, "");
      if unique.None? { return false; }
      var cfg := request.(id := newId, name := unique.value);
      settings := settings.(configs := settings.configs + [cfg]);
      LoadedKeeps(settings);
      hide Loaded, OtherNames, FirstFree;
      if !writes { return false; }
      stored := Some(settings);
      ok := true;
      if DistinctNames(loaded.configs) { CreateKeepsNamesIff(loaded.configs, request, newId, unique.value); }
      assert CreatedAs(loaded, request, newId, unique.value, stored);
    }

    method Update(request: ModelConfig, writes: bool) returns (ok: bool)
      modifies this
      ensures !ok ==> stored == old(stored)
      ensures ok ==> exists i: nat, cfg: ModelConfig :: UpdatedAt(Loaded(old(stored)), i, cfg, request, stored)
      ensures writes && |Loaded(old(stored)).configs| <= MAX_UNIQUE_NAME_ATTEMPTS ==>
                (ok <==> HasId(Loaded(old(stored)).configs, request.id))
      ensures Proper(Loaded(old(stored)).configs) ==> Proper(Loaded(stored).configs)
    {
      var settings := LoadSettings(stored);
      ghost var loaded := settings;
      assert loaded == Loaded(stored);
      hide Loaded, OtherNames, FirstFree, Proper, UpdatedAt;
      for i := 0 to |settings.configs|
        invariant settings == loaded && stored == old(stored)
        invariant forall k :: 0 <= k < i ==> settings.configs[k].id != request.id
      {
        if settings.configs[i].id == request.id {
          OthersBelow(settings.configs, request.id, |settings.configs|, i);
          var unique := EnsureUniqueName(request.name, settings.configs, request.id);
          if unique.None? { return false; }
          var key := if request.key != "" then request.key else settings.configs[i].key;
          var cfg := request.(key := key, name := unique.value);
          if !writes { return false; }
          settings := settings.(configs := settings.configs[i := cfg]);
          UpdatedFacts(loaded, i, cfg, request);
          stored := Some(settings);
          return true;
        }
      }
      ok := false;
    }

    /** Ids that are empty or hold one of four characters are refused, also if such a config is stored. */
    method Delete(id: string, writes: bool) returns (ok: bool)
      modifies this
      ensures !ok ==> stored == old(stored)
      ensures writes ==> (ok <==> ValidId(id) && HasId(Loaded(old(stored)).configs, id))
      ensures ok ==> stored == Some(AfterDelete(Loaded(old(stored)), id))
      ensures ok ==> Loaded(stored).configs == stored.value.configs
      ensures DistinctNames(Loaded(old(stored)).configs) ==> DistinctNames(Loaded(stored).configs)
      ensures Proper(Loaded(old(stored)).configs) ==> Proper(Loaded(stored).configs)
    {
      if !ValidId(id) { return false; }
      var settings := LoadSettings(stored);
      var newConfigs: seq<ModelConfig> := [];
      var found := false;
      for i := 0 to |settings.configs|
        invariant newConfigs == Without(settings.configs, id, i)
        invariant found <==> exists k :: 0 <= k < i && settings.configs[k].id == id
      {
        if settings.configs[i].id != id {
          newConfigs := newConfigs + [settings.configs[i]];
        } else {
          found := true;
        }
      }
      if !found { return false; }
      ghost var n := |settings.configs|;
      if DistinctNames(settings.configs) { DeleteKeepsNames(settings.configs, id, n); }
      if ProperIds(settings.configs) { DeleteKeepsIds(settings.configs, id, n); }
      settings := settings.(configs := newConfigs);
      if settings.activeId == id {
        settings := settings.(activeId := if |newConfigs| > 0 then newConfigs[0].id else "");
      }
      settings := DeriveFlatFields(settings);
      if !writes { return false; }
      if newConfigs == [] { NothingActive(settings); }
      LoadedKeeps(settings);
      hide Normalized, Without, DistinctNames, ProperIds;
      stored := Some(settings);
      ok := true;
    }
  }

  /** The last part of the request's path may be this id. */
  predicate ValidId(id: string) {
    id != "" && forall i :: 0 <= i < |id| ==> id[i] !in {'/', '\\', ':', '%'}
  }

  predicate HasId(configs: seq<ModelConfig>, id: string) { exists i :: 0 <= i < |configs| && configs[i].id == id }

  /** The config is appended under u, the first free name; names stay distinct just if no config without id has it. */
  ghost predicate CreatedAs(loaded: Settings, request: ModelConfig, newId: string, u: string,
                            stored: Option<Settings>) {
    && FirstFree(request.name, OtherNames(loaded.configs, "", |loaded.configs|), u)
    && stored == Some(loaded.(configs := loaded.configs + [request.(id := newId, name := u)]))
    && (DistinctNames(loaded.configs) ==> (DistinctNames(stored.value.configs) <==> !Carried(loaded.configs, "", u)))
  }

  /**
   * The first config with the id is replaced; its name is the first free candidate, and an empty key keeps the old
   * one. Names stay distinct just if no other config with the same id has that name.
   */
  ghost predicate UpdatedAt(loaded: Settings, i: nat, cfg: ModelConfig, request: ModelConfig,
                            stored: Option<Settings>) {
    && i < |loaded.configs| && loaded.configs[i].id == request.id
    && (forall k :: 0 <= k < i ==> loaded.configs[k].id != request.id)
    && FirstFree(request.name, OtherNames(loaded.configs, request.id, |loaded.configs|), cfg.name)
    && cfg == request.(name := cfg.name, key := if request.key != "" then request.key else loaded.configs[i].key)
    && stored == Some(loaded.(configs := loaded.configs[i := cfg]))
    && (DistinctNames(loaded.configs) ==>
          (DistinctNames(stored.value.configs) <==> !CarriedBeside(loaded.configs, i, cfg.name)))
  }

  lemma UpdatedFacts(loaded: Settings, i: nat, cfg: ModelConfig, request: ModelConfig)
    requires i < |loaded.configs| && loaded.configs[i].id == request.id
    requires forall k :: 0 <= k < i ==> loaded.configs[k].id != request.id
    requires FirstFree(request.name, OtherNames(loaded.configs, request.id, |loaded.configs|), cfg.name)
    requires cfg == request.(name := cfg.name, key := if request.key != "" then request.key else loaded.configs[i].key)
    ensures var updated := loaded.(configs := loaded.configs[i := cfg]);
            && UpdatedAt(loaded, i, cfg, request, Some(updated))
            && (Proper(loaded.configs) ==> Proper(Loaded(Some(updated)).configs))
  {
    if Proper(loaded.configs) { UpdateKeepsProper(loaded.configs, i, cfg); }
    if DistinctNames(loaded.configs) { UpdateKeepsNamesIff(loaded.configs, i, cfg); }
    LoadedKeeps(loaded.(configs := loaded.configs[i := cfg]));
    hide DistinctNames, ProperIds, CarriedBeside, Loaded, OtherNames;
  }

  lemma {:induction false} OthersAtMost(configs: seq<ModelConfig>, excludeId: string, n: nat)
    requires n <= |configs|
    ensures Others(configs, excludeId, n) <= n
  {
    if n == 0 {
    } else {
      OthersAtMost(configs, excludeId, n - 1);
    }
  }

  lemma {:induction false} OthersBelow(configs: seq<ModelConfig>, excludeId: string, n: nat, i: nat)
    requires i < |configs| && n <= |configs| && configs[i].id == excludeId
    ensures Others(configs, excludeId, n) <= if i < n then n - 1 else n
  {
    if n == 0 {
    } else {
      OthersBelow(configs, excludeId, n - 1, i);
    }
  }
}
