/** The registry shapes of the market-analysis agents: primary analysis, then
    secondary analysis depending on it, then the report depending on both. */
module AgentConfigs {
  import opened Text
  import opened Values
  import opened Context
  import opened Orchestrator

  const Primary := "primary_analysis"
  const Secondary := "secondary_analysis"
  const Report := "report_generator"

  /** "completion_threshold": 0.8 together with "required_fields_present" over the
      primary agent's required fields. */
  const PrimaryTrigger: Trigger :=
    And(CompletionAtLeast(4, 5),
        And(FieldPresent("company_name"), And(FieldPresent("product_description"), FieldPresent("target_market"))))

  /** "depends_on": ["primary_analysis"]. */
  const SecondaryTrigger: Trigger := AgentResultPresent(Primary)

  /** "depends_on": ["primary_analysis", "secondary_analysis"]. */
  const ReportTrigger: Trigger := And(AgentResultPresent(Primary), AgentResultPresent(Secondary))

  const MarketOrder := [Primary, Secondary, Report]

  const PrimaryEndpoint := "http://localhost:8001/agents/primary_analysis/execute"
  const SecondaryEndpoint := "http://localhost:8001/agents/secondary_analysis/execute"
  const ReportEndpoint := "http://localhost:8001/agents/report_generator/execute"

  const PrimaryConfig := AgentConfig(Primary, PrimaryTrigger, PrimaryEndpoint)
  const SecondaryConfig := AgentConfig(Secondary, SecondaryTrigger, SecondaryEndpoint)
  const ReportConfig := AgentConfig(Report, ReportTrigger, ReportEndpoint)

  const MarketAgents: map<string, AgentConfig> :=
    map[Primary := PrimaryConfig, Secondary := SecondaryConfig, Report := ReportConfig]

  /** Registers the three agents in the order the configuration lists them. */
  method RegisterMarketAgents(o: AgentOrchestrator)
    requires o.Valid() && o.order == [] && o.agents == map[]
    modifies o
    ensures o.Valid() && o.order == MarketOrder && o.agents == MarketAgents
  {
    assert Primary != Secondary && Primary != Report && Secondary != Report;
    o.RegisterAgent(Primary, PrimaryTrigger, PrimaryEndpoint);
    assert o.order == [Primary] && o.agents == map[Primary := PrimaryConfig];
    o.RegisterAgent(Secondary, SecondaryTrigger, SecondaryEndpoint);
    assert o.order == [Primary, Secondary];
    assert o.agents == map[Primary := PrimaryConfig, Secondary := SecondaryConfig];
    assert Report !in o.agents;
    o.RegisterAgent(Report, ReportTrigger, ReportEndpoint);
    assert o.order == [Primary, Secondary] + [Report];
  }

  /** The primary agent triggers exactly when its three fields are present and at
      least 80% of the context's values are not `None`. */
  lemma PrimaryTriggerMeaning(ctx: ContextView)
    ensures Holds(PrimaryTrigger, ctx) <==>
      && "company_name" in ctx.data && "product_description" in ctx.data && "target_market" in ctx.data
      && 5 * Filled(ctx.data) >= 4 * |ctx.data|
  {
    var last := And(FieldPresent("product_description"), FieldPresent("target_market"));
    assert Holds(last, ctx) <==> "product_description" in ctx.data && "target_market" in ctx.data;
    var fields := And(FieldPresent("company_name"), last);
    assert Holds(fields, ctx) <==> "company_name" in ctx.data && Holds(last, ctx);
    assert Holds(CompletionAtLeast(4, 5), ctx) <==> |ctx.data| > 0 && Filled(ctx.data) * 5 >= 4 * |ctx.data|;
    assert Holds(PrimaryTrigger, ctx) <==> Holds(CompletionAtLeast(4, 5), ctx) && Holds(fields, ctx);
  }

  /** While no agent has a result recorded under `agent_triggers` (as in every session
      the store creates, since nothing in the core writes that map), the trigger filter
      over this registry yields at most the primary agent. */
  lemma {:induction false} OnlyPrimaryWithoutResults(ctx: ContextView)
    requires ctx.agentTriggers == map[]
    ensures Eligible(MarketOrder, MarketAgents, ctx) == (if Holds(PrimaryTrigger, ctx) then [Primary] else [])
  {
    assert MarketOrder[1..] == [Secondary, Report];
    assert MarketOrder[1..][1..] == [Report];
    assert MarketOrder[1..][1..][1..] == [];
    assert !Holds(SecondaryTrigger, ctx);
    assert !Holds(AgentResultPresent(Primary), ctx);
    assert !Holds(ReportTrigger, ctx);
    assert MarketAgents[Secondary].triggerCondition == SecondaryTrigger;
    assert MarketAgents[Report].triggerCondition == ReportTrigger;
    assert Eligible([Report], MarketAgents, ctx) == [];
    assert Eligible([Secondary, Report], MarketAgents, ctx) == [];
  }

  /** The secondary agent never triggers before the primary has a result, and the report
      never before both have one, whatever the context's fields. */
  lemma DependentsWaitForResults(ctx: ContextView)
    ensures Secondary in Eligible(MarketOrder, MarketAgents, ctx) ==> HasResult(ctx, Primary)
    ensures Report in Eligible(MarketOrder, MarketAgents, ctx) ==> HasResult(ctx, Primary) && HasResult(ctx, Secondary)
  {
    assert Distinct(MarketOrder);
    EligibleIsOrderedFilter(MarketOrder, MarketAgents, ctx);
    assert MarketAgents[Secondary].triggerCondition == SecondaryTrigger;
    assert MarketAgents[Report].triggerCondition == ReportTrigger;
    assert Holds(ReportTrigger, ctx) <==> Holds(AgentResultPresent(Primary), ctx) && Holds(AgentResultPresent(Secondary), ctx);
  }
}
