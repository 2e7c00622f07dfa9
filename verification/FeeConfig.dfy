/** Fees and authorization rules on the config ledger: set_fees_handler.py, domain.py,
    auth_rule_fee_handler.py and auth_rules_fee_handler.py. */
module FeeConfig {
  import opened Types
  import Stores
  import Requests
  import opened Authorizer

  // ----- the fee table in the config state -----

  datatype ConfigValue = FeeValue(fee: nat) | FeeMap(table: FeeTable)

  type ConfigState = map<string, ConfigValue>

  const PREFIX := "200:"
  const WHOLE := "200:fees"

  /** build_path_for_set_fees for an alias; an empty one counts as none. */
  function Path(alias: string): (key: string)
    ensures alias == "" ==> key == WHOLE
    ensures alias == "fees" ==> key == WHOLE
  {
    if alias == "" then WHOLE else PREFIX + alias
  }

  /** Two aliases share a key only as names of the whole table. */
  lemma PathsDiffer(a: string, b: string)
    ensures Path(a) == Path(b) <==> a == b || (Whole(a) && Whole(b))
    ensures Path(a) == WHOLE <==> Whole(a)
    ensures Path(a) == "200:" + if a == "" then "fees" else a
  {
    assert PREFIX + a == PREFIX + b ==> (PREFIX + a)[4..] == (PREFIX + b)[4..];
    assert (PREFIX + a)[4..] == a && (PREFIX + b)[4..] == b && WHOLE[4..] == "fees" && WHOLE == PREFIX + "fees";
  }

  /** Aliases whose key is that of the whole table. */
  predicate Whole(alias: string) { alias == "" || alias == "fees" }

  /** get_fee_from_state for the whole table. */
  function Table(state: ConfigState): FeeTable {
    if WHOLE in state && state[WHOLE].FeeMap? then state[WHOLE].table else map[]
  }

  /** The alias whose key this is; "" when it is none's. */
  function AliasOf(key: string): string { if PREFIX <= key then key[4..] else "" }

  lemma AliasOfPath(alias: string)
    requires alias != ""
    ensures AliasOf(Path(alias)) == alias
    ensures forall key :: AliasOf(key) == alias ==> key == Path(alias)
  {
    assert forall key :: PREFIX <= key ==> key == PREFIX + key[4..];
  }

  /** The keys an update gives to single aliases; an empty alias has none of its own. */
  function Paths(update: FeeTable): set<string> { set a | a in update && a != "" :: Path(a) }

  ghost predicate HasKey(update: FeeTable, key: string) { AliasOf(key) != "" && AliasOf(key) in update }

  /** The config state with each alias of the update under its own key. */
  ghost function WithAliases(state: ConfigState, update: FeeTable): ConfigState {
    map key | key in state.Keys + Paths(update) :: KeyValue(state, update, key)
  }

  ghost function KeyValue(state: ConfigState, update: FeeTable, key: string): ConfigValue
    requires key in state.Keys + Paths(update)
  {
    if HasKey(update, key) then FeeValue(update[AliasOf(key)])
    else
      assert key in state by {
        forall a | a in update && a != "" && key == Path(a) ensures false { AliasOfPath(a); }
      }
      state[key]
  }

  /** The config state after a SET_FEES transaction. */
  ghost function FeesSet(state: ConfigState, update: FeeTable): ConfigState {
    WithAliases(state, update)[WHOLE := FeeMap(Table(state) + update)]
  }

  lemma WithOneMore(state: ConfigState, done: FeeTable, alias: string, fee: nat)
    requires alias != "" && alias !in done
    ensures WithAliases(state, done[alias := fee]) == WithAliases(state, done)[Path(alias) := FeeValue(fee)]
  {
    AliasOfPath(alias);
    assert Paths(done[alias := fee]) == Paths(done) + {Path(alias)};
  }

  /** An empty alias only touches the key that the whole table takes at the end. */
  lemma WithEmptyAlias(state: ConfigState, done: FeeTable, fee: nat)
    ensures WithAliases(state, done["" := fee]) == WithAliases(state, done)
  {
    assert Paths(done["" := fee]) == Paths(done);
  }

  lemma WithNone(state: ConfigState)
    ensures WithAliases(state, map[]) == state
  {
    assert Paths(map[]) == {};
  }

  /** What the aliases handled so far leave behind, but for the whole table's key. */
  ghost predicate UpTo(state: ConfigState, before: ConfigState, done: FeeTable, last: ConfigValue) {
    state[WHOLE := last] == WithAliases(before, done)[WHOLE := last]
  }

  lemma UpToOneMore(state: ConfigState, before: ConfigState, done: FeeTable, last: ConfigValue, alias: string, fee: nat)
    requires UpTo(state, before, done, last) && alias !in done
    ensures UpTo(state[Path(alias) := FeeValue(fee)], before, done[alias := fee], last)
  {
    hide WithAliases;
    if alias == "" {
      WithEmptyAlias(before, done, fee);
    } else {
      WithOneMore(before, done, alias, fee);
    }
    UpdateBeneath(state, WithAliases(before, done), Path(alias), FeeValue(fee), last);
  }

  lemma UpdateBeneath(p: ConfigState, q: ConfigState, key: string, value: ConfigValue, last: ConfigValue)
    requires p[WHOLE := last] == q[WHOLE := last]
    ensures p[key := value][WHOLE := last] == q[key := value][WHOLE := last]
    ensures p[WHOLE := value][WHOLE := last] == q[WHOLE := last]
  {
    assert p[key := value][WHOLE := last]
      == if key == WHOLE then p[WHOLE := last] else p[WHOLE := last][key := value];
    assert q[key := value][WHOLE := last]
      == if key == WHOLE then q[WHOLE := last] else q[WHOLE := last][key := value];
  }

  class SetFeesHandler {
    var state: ConfigState

    constructor ()
      ensures state == map[]
    {
      state := map[];
    }

    /** update_state: each alias's key in any order, then the whole table. */
    method UpdateState(update: FeeTable)
      modifies this
      ensures state == FeesSet(old(state), update)
    {
      hide WithAliases, Path, UpTo;
      var currentFees := Table(state) + update;
      var aliases := update.Keys;
      ghost var done: FeeTable := map[];
      StartUpTo(state, FeeMap(currentFees));
      while aliases != {}
        invariant aliases <= update.Keys && done == update - aliases
        invariant UpTo(state, old(state), done, FeeMap(currentFees))
        decreases aliases
      {
        var alias :| alias in aliases;
        UpToOneMore(state, old(state), done, FeeMap(currentFees), alias, update[alias]);
        aliases := aliases - {alias};
        state := state[Path(alias) := FeeValue(update[alias])];
        done := done[alias := update[alias]];
      }
      assert done == update;
      EndUpTo(state, old(state), update);
      state := state[WHOLE := FeeMap(currentFees)];
    }
  }

  lemma StartUpTo(state: ConfigState, last: ConfigValue)
    ensures UpTo(state, state, map[], last)
  {
    WithNone(state);
  }

  lemma EndUpTo(state: ConfigState, before: ConfigState, update: FeeTable)
    requires UpTo(state, before, update, FeeMap(Table(before) + update))
    ensures state[WHOLE := FeeMap(Table(before) + update)] == FeesSet(before, update)
  {
  }

  // ----- any sequence of SET_FEES -----

  ghost function AllSet(updates: seq<FeeTable>): ConfigState {
    if updates == [] then map[] else FeesSet(AllSet(updates[..|updates| - 1]), updates[|updates| - 1])
  }

  /** All updates, later ones winning. */
  function Folded(updates: seq<FeeTable>): FeeTable {
    if updates == [] then map[] else Folded(updates[..|updates| - 1]) + updates[|updates| - 1]
  }

  lemma {:induction false} TableIsFold(updates: seq<FeeTable>)
    ensures Table(AllSet(updates)) == Folded(updates)
    ensures updates != [] ==> WHOLE in AllSet(updates) && AllSet(updates)[WHOLE] == FeeMap(Folded(updates))
  {
    if updates != [] { TableIsFold(updates[..|updates| - 1]); }
  }

  lemma PathIn(update: FeeTable, alias: string)
    requires alias != ""
    ensures Path(alias) in Paths(update) <==> alias in update
  {
    forall a | a in update && a != "" ensures Path(a) == Path(alias) ==> a == alias { AliasOfPath(a); AliasOfPath(alias); }
  }

  /** The two indexes of the fee table agree after any sequence of updates: an alias has its own
      key exactly when the table has it, holding the table's entry, for every alias but "fees"
      and the empty one, whose key is the whole table's. */
  lemma {:induction false} AliasKeysAgree(updates: seq<FeeTable>, alias: string)
    ensures var state, table := AllSet(updates), Folded(updates);
      && (!Whole(alias) ==> (Path(alias) in state <==> alias in table))
      && (alias in table ==> Path(alias) in state && (state[Path(alias)] == FeeValue(table[alias]) <==> !Whole(alias)))
  {
    if Whole(alias) {
      TableIsFold(updates);
    } else {
      OwnKeyAgrees(updates, alias);
    }
  }

  lemma {:induction false} OwnKeyAgrees(updates: seq<FeeTable>, alias: string)
    requires !Whole(alias)
    ensures var state, table := AllSet(updates), Folded(updates);
      && (Path(alias) in state <==> alias in table)
      && (alias in table ==> state[Path(alias)] == FeeValue(table[alias]))
  {
    PathsDiffer(alias, "fees");
    if updates != [] {
      OwnKeyAgrees(updates[..|updates| - 1], alias);
      AliasOfPath(alias);
      PathIn(updates[|updates| - 1], alias);
    }
  }

  /** Once fees have been set, reading the fee of an alias called "fees" gives the whole table,
      whatever fee the updates gave to that alias. */
  lemma FeesAliasCollides(updates: seq<FeeTable>)
    requires updates != []
    ensures Path("fees") in AllSet(updates) && AllSet(updates)[Path("fees")] == FeeMap(Folded(updates))
    ensures "fees" in Folded(updates) ==> AllSet(updates)[Path("fees")] != FeeValue(Folded(updates)["fees"])
  {
    TableIsFold(updates);
  }

  /** Under this config state the authorizer lets the request through exactly when it pays this
      fee, and a payment by `fees` that it lets through is recorded with just this fee. */
  ghost predicate Demands(state: ConfigState, alias: Option<string>, index: Stores.Index, r: Requests.Request, fee: int) {
    var accepted := Authorize(index, Table(state), alias, r) == None;
    && (accepted <==> MayPay(index, r, fee))
    && (accepted && r.txnType != Requests.XFER_PUBLIC && r.fees.Some? ==> CalculateFees(index, r) == fee)
  }

  /** The fee demanded is the one SET_FEES wrote: for an alias with a key of its own the value
      under that key, for any alias in the table the latest set, otherwise nothing. */
  lemma FeeInForce(updates: seq<FeeTable>, alias: Option<string>, index: Stores.Index, r: Requests.Request)
    ensures var state := AllSet(updates);
      alias.Some? && !Whole(alias.value) && Path(alias.value) in state ==>
        state[Path(alias.value)].FeeValue? && Demands(state, alias, index, r, state[Path(alias.value)].fee)
    ensures alias.Some? && alias.value in Folded(updates) ==>
      Demands(AllSet(updates), alias, index, r, Folded(updates)[alias.value])
    ensures alias.None? || alias.value !in Folded(updates) ==> Demands(AllSet(updates), alias, index, r, 0)
  {
    hide Path, AllSet, Folded;
    TableIsFold(updates);
    if alias.Some? { AliasKeysAgree(updates, alias.value); }
    AuthorizeRule(index, Table(AllSet(updates)), alias, r);
  }

  /** SET_FEES leaves every key alone that belongs to none of its aliases, nor to the whole table. */
  lemma OtherKeysKept(state: ConfigState, update: FeeTable, key: string)
    requires key != WHOLE && forall a :: a in update ==> key != Path(a)
    ensures key in FeesSet(state, update) <==> key in state
    ensures key in state ==> FeesSet(state, update)[key] == state[key]
  {
    assert HasKey(update, key) ==> key == Path(AliasOf(key));
  }

  // ----- authorization rules -----

  /** A constraint tree; `alias` is the fees entry of a role constraint's metadata. */
  datatype Constraint = Forbidden | Role(alias: Option<string>) | Combined(children: seq<Constraint>)

  /** The aliases at the role leaves, left to right. */
  function RoleAliases(c: Constraint): seq<string>
    decreases c, if c.Combined? then |c.children| + 1 else 0
  {
    match c
    case Forbidden => []
    case Role(alias) => if alias.Some? && alias.value != "" then [alias.value] else []
    case Combined(children) => AllRoleAliases(c, children)
  }

  function AllRoleAliases(parent: Constraint, cs: seq<Constraint>): seq<string>
    requires forall i :: 0 <= i < |cs| ==> cs[i] < parent
    decreases parent, |cs|
  {
    if cs == [] then [] else AllRoleAliases(parent, cs[..|cs| - 1]) + RoleAliases(cs[|cs| - 1])
  }

  /** Some role leaf of the tree asks for the fee of this alias. */
  ghost predicate HasLeaf(c: Constraint, alias: string) {
    match c
    case Forbidden => false
    case Role(asked) => alias != "" && asked == Some(alias)
    case Combined(children) => exists i :: 0 <= i < |children| && HasLeaf(children[i], alias)
  }

  /** The aliases found in a tree of any shape are those of its role leaves. */
  lemma {:induction false} RoleAliasesAreLeaves(c: Constraint, alias: string)
    ensures alias in RoleAliases(c) <==> HasLeaf(c, alias)
    decreases c, if c.Combined? then |c.children| + 1 else 0
  {
    if c.Combined? { ChildAliasesAreLeaves(c, c.children, alias); }
  }

  lemma {:induction false} ChildAliasesAreLeaves(parent: Constraint, cs: seq<Constraint>, alias: string)
    requires forall i :: 0 <= i < |cs| ==> cs[i] < parent
    ensures alias in AllRoleAliases(parent, cs) <==> exists i :: 0 <= i < |cs| && HasLeaf(cs[i], alias)
    decreases parent, |cs|
  {
    if cs != [] {
      var init, last := cs[..|cs| - 1], cs[|cs| - 1];
      ChildAliasesAreLeaves(parent, init, alias);
      RoleAliasesAreLeaves(last, alias);
      assert forall i :: 0 <= i < |init| ==> init[i] == cs[i];
    }
  }

  /** Those of the aliases that the table lacks, in order. */
  function Undefined(aliases: seq<string>, fees: FeeTable): seq<string> {
    if aliases == [] then []
    else
      var last := aliases[|aliases| - 1];
      Undefined(aliases[..|aliases| - 1], fees) + if last in fees then [] else [last]
  }

  lemma {:induction false} UndefinedConcat(a: seq<string>, b: seq<string>, fees: FeeTable)
    ensures Undefined(a + b, fees) == Undefined(a, fees) + Undefined(b, fees)
  {
    if b == [] {
      assert a + b == a && Undefined(a, fees) + [] == Undefined(a, fees);
    } else {
      assert (a + b)[..|a + b| - 1] == a + b[..|b| - 1];
      UndefinedConcat(a, b[..|b| - 1], fees);
    }
  }

  lemma {:induction false} NothingUndefined(aliases: seq<string>, fees: FeeTable)
    ensures Undefined(aliases, fees) == [] <==> forall a :: a in aliases ==> a in fees
  {
    if aliases != [] {
      var init, last := aliases[..|aliases| - 1], aliases[|aliases| - 1];
      assert aliases == init + [last];
      NothingUndefined(init, fees);
    }
  }

  lemma {:induction false} UndefinedAre(aliases: seq<string>, fees: FeeTable, a: string)
    ensures a in Undefined(aliases, fees) <==> a in aliases && a !in fees
  {
    if aliases != [] {
      var init, last := aliases[..|aliases| - 1], aliases[|aliases| - 1];
      assert aliases == init + [last];
      UndefinedAre(init, fees, a);
    }
  }

  /** What validate_metadata reports: the aliases of role leaves that have no fee. */
  lemma ReportedAliases(c: Constraint, fees: FeeTable, a: string)
    ensures a in Undefined(RoleAliases(c), fees) <==> HasLeaf(c, a) && a !in fees
  {
    UndefinedAre(RoleAliases(c), fees, a);
    RoleAliasesAreLeaves(c, a);
  }

  lemma OneMoreChild(c: Constraint, i: nat, fees: FeeTable)
    requires c.Combined? && i < |c.children|
    ensures Undefined(AllRoleAliases(c, c.children[..i + 1]), fees)
      == Undefined(AllRoleAliases(c, c.children[..i]), fees) + Undefined(RoleAliases(c.children[i]), fees)
  {
    assert c.children[..i + 1][..i] == c.children[..i];
    UndefinedConcat(AllRoleAliases(c, c.children[..i]), RoleAliases(c.children[i]), fees);
  }

  function LackedBy(alias: Option<string>, fees: FeeTable): seq<string> {
    if alias.Some? && alias.value != "" && alias.value !in fees then [alias.value] else []
  }

  /** Where the recursion stops, and where a loop over children starts and ends. */
  lemma LeafUndefined(c: Constraint, fees: FeeTable)
    ensures c.Forbidden? ==> Undefined(RoleAliases(c), fees) == []
    ensures c.Role? ==> Undefined(RoleAliases(c), fees) == LackedBy(c.alias, fees)
    ensures c.Combined? ==> Undefined(AllRoleAliases(c, c.children[..0]), fees) == []
    ensures c.Combined? ==> RoleAliases(c) == AllRoleAliases(c, c.children)
  {
    if c.Role? && c.alias.Some? { assert [c.alias.value][..0] == []; }
  }

  class AliasList {
    var items: seq<string>

    constructor ()
      ensures items == []
    {
      items := [];
    }
  }

  /** validate_metadata appends to the shared list exactly the undefined aliases of the tree, in order. */
  method ValidateMetadata(fees: FeeTable, c: Constraint, wrongAliases: AliasList)
    modifies wrongAliases
    ensures wrongAliases.items == old(wrongAliases.items) + Undefined(RoleAliases(c), fees)
    decreases c
  {
    hide Undefined, AllRoleAliases, RoleAliases;
    LeafUndefined(c, fees);
    if c.Forbidden? {
      return;
    }
    if c.Combined? {
      for i := 0 to |c.children|
        invariant wrongAliases.items == old(wrongAliases.items) + Undefined(AllRoleAliases(c, c.children[..i]), fees)
      {
        OneMoreChild(c, i, fees);
        ValidateMetadata(fees, c.children[i], wrongAliases);
      }
      assert c.children[..|c.children|] == c.children;
    } else {
      if c.alias.Some? && c.alias.value != "" && c.alias.value !in fees {
        wrongAliases.items := wrongAliases.items + [c.alias.value];
      }
    }
  }

  /** fees_specific_validation of AUTH_RULE and AUTH_RULES: each rule starts with an empty list. */
  method FeesSpecificValidation(fees: FeeTable, rules: seq<Constraint>) returns (accepted: bool)
    ensures accepted <==> AllDefined(rules, fees)
  {
    for i := 0 to |rules|
      invariant AllDefined(rules[..i], fees)
    {
      var wrongAliases := new AliasList();
      ValidateMetadata(fees, rules[i], wrongAliases);
      assert [] + Undefined(RoleAliases(rules[i]), fees) == Undefined(RoleAliases(rules[i]), fees);
      NothingUndefined(RoleAliases(rules[i]), fees);
      if wrongAliases.items != [] {
        return false;
      }
    }
    assert rules[..|rules|] == rules;
    return true;
  }

  /** Every alias at a role leaf of the rules is in the table. */
  ghost predicate AllDefined(rules: seq<Constraint>, fees: FeeTable) {
    forall i, a :: 0 <= i < |rules| && a in RoleAliases(rules[i]) ==> a in fees
  }

  // ----- runs of the config ledger -----

  datatype Config = Config(state: ConfigState, rules: seq<Constraint>)

  /** Pending batches are snapshots stacked on the committed one, rejected newest first. */
  datatype ConfigEvent = SetFees(update: FeeTable) | SetRules(rules: seq<Constraint>) | RejectNewest | CommitOldest

  ghost function ConfigStep(stack: seq<Config>, e: ConfigEvent): seq<Config>
    requires stack != []
    ensures ConfigStep(stack, e) != []
  {
    var top := stack[|stack| - 1];
    match e
    case SetFees(update) => stack + [top.(state := FeesSet(top.state, update))]
    case SetRules(rules) =>
      if AllDefined(rules, Table(top.state)) then stack + [top.(rules := top.rules + rules)] else stack
    case RejectNewest => if |stack| > 1 then stack[..|stack| - 1] else stack
    case CommitOldest => if |stack| > 1 then stack[1..] else stack
  }

  ghost function ConfigRun(es: seq<ConfigEvent>): seq<Config>
    ensures ConfigRun(es) != []
  {
    if es == [] then [Config(map[], [])] else ConfigStep(ConfigRun(es[..|es| - 1]), es[|es| - 1])
  }

  ghost predicate NoDangling(c: Config) { AllDefined(c.rules, Table(c.state)) }

  /** SET_FEES never drops an alias. */
  lemma FeesOnlyGrow(state: ConfigState, update: FeeTable)
    ensures Table(state).Keys <= Table(FeesSet(state, update)).Keys
  {
  }

  lemma RulesAdd(c: Config, rules: seq<Constraint>)
    requires NoDangling(c) && AllDefined(rules, Table(c.state))
    ensures NoDangling(c.(rules := c.rules + rules))
  {
    forall i, a | 0 <= i < |c.rules + rules| && a in RoleAliases((c.rules + rules)[i])
      ensures a in Table(c.state)
    {
      if i < |c.rules| { assert a in RoleAliases(c.rules[i]); } else { assert a in RoleAliases(rules[i - |c.rules|]); }
    }
  }

  /** Rules are taken, at the end of those in force, exactly if every alias of every role leaf has a fee. */
  lemma SetRulesExactly(stack: seq<Config>, rules: seq<Constraint>)
    requires stack != []
    ensures var top := stack[|stack| - 1];
      ConfigStep(stack, SetRules(rules)) ==
        if forall i, a :: 0 <= i < |rules| && HasLeaf(rules[i], a) ==> a in Table(top.state)
        then stack + [Config(top.state, top.rules + rules)] else stack
  {
    hide RoleAliases, HasLeaf, Table;
    forall i, a | 0 <= i < |rules|
      ensures a in RoleAliases(rules[i]) <==> HasLeaf(rules[i], a)
    {
      RoleAliasesAreLeaves(rules[i], a);
    }
  }

  /** In every state of every run, committed or pending, every alias of every accepted rule is
      still defined. */
  lemma {:induction false} NoDanglingAlias(es: seq<ConfigEvent>)
    ensures forall i :: 0 <= i < |ConfigRun(es)| ==> NoDangling(ConfigRun(es)[i])
  {
    if es != [] {
      var init, e := es[..|es| - 1], es[|es| - 1];
      NoDanglingAlias(init);
      var stack := ConfigRun(init);
      var top := stack[|stack| - 1];
      match e
      case SetFees(update) => FeesOnlyGrow(top.state, update);
      case SetRules(rules) => if AllDefined(rules, Table(top.state)) { RulesAdd(top, rules); }
      case RejectNewest =>
      case CommitOldest =>
    }
  }
}
