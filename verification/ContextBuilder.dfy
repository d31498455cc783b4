/**
 The budgeted prompt.  Rendering is a function of what has been omitted; the memory section is any
 function of the room it is given.
 */
module ContextBuilder {
  import opened Common
  import ConversationSection

  const MIN_CONTEXT_CHARS: nat := 1000
  const NOTICE: string := "\n[context truncated to budget]"
  const GAP: string := "\n\n"
  const MEMORY_HEADER: string := "\n\n# MEMORY"

  // ---- what is dropped, in order ---------------------------------------------------------

  datatype Omitted = Omitted(events: nat, invocations: nat, approvals: nat, artifacts: nat, turns: nat,
    description: bool)

  /** How many items of each kind there are to drop. */
  datatype Counts = Counts(events: nat, invocations: nat, approvals: nat, artifacts: nat, turns: nat) {
    function Total(): nat {
      events + invocations + approvals + artifacts + turns + 1
    }
  }

  const NOTHING := Omitted(0, 0, 0, 0, 0, false)

  function NextDrop(c: Counts, o: Omitted): Option<Omitted> {
    if o.events < c.events then Some(o.(events := o.events + 1))
    else if o.invocations < c.invocations then Some(o.(invocations := o.invocations + 1))
    else if o.approvals < c.approvals then Some(o.(approvals := o.approvals + 1))
    else if o.artifacts < c.artifacts then Some(o.(artifacts := o.artifacts + 1))
    else if o.turns < c.turns then Some(o.(turns := o.turns + 1))
    else if !o.description then Some(o.(description := true))
    else None
  }

  function Upto(k: int, n: nat): nat {
    if k < 0 then 0 else if k > n then n else k
  }

  /** The state after k drops: the k least relevant items are gone, each kind in full before the next is touched. */
  function Dropped(c: Counts, k: nat): Omitted {
    var i := k - c.events;
    var a := i - c.invocations;
    var f := a - c.approvals;
    var t := f - c.artifacts;
    Omitted(Upto(k, c.events), Upto(i, c.invocations), Upto(a, c.approvals), Upto(f, c.artifacts), Upto(t, c.turns),
      t > c.turns)
  }

  /** The code's step is one step along that sequence, and it stops exactly at its end. */
  lemma DropsInOrder(c: Counts, k: nat)
    requires k <= c.Total()
    ensures NextDrop(c, Dropped(c, k)) == if k < c.Total() then Some(Dropped(c, k + 1)) else None
  {
  }

  /** The first state of the sequence whose rendering fits, or the last state if none does. */
  ghost predicate FirstFitting(c: Counts, render: Omitted -> string, budget: nat, k: nat) {
    && k <= c.Total()
    && (forall j :: 0 <= j < k ==> |render(Dropped(c, j))| > budget)
    && (|render(Dropped(c, k))| <= budget || k == c.Total())
  }

  function Cut(text: string, budget: nat): string
    requires |NOTICE| <= budget <= |text|
  {
    text[..budget - |NOTICE|] + NOTICE
  }

  /** The core document for a drop state. */
  function Core(c: Counts, render: Omitted -> string, budget: nat, k: nat): string
    requires |NOTICE| <= budget
  {
    var text := render(Dropped(c, k));
    if |text| <= budget then text else Cut(text, budget)
  }

  /** The drop loop: it ends, selects the first fitting state and never exceeds the budget. */
  method Shrink(c: Counts, render: Omitted -> string, budget: nat) returns (document: string, ghost k: nat)
    requires |NOTICE| <= budget
    ensures FirstFitting(c, render, budget, k) && document == Core(c, render, budget, k)
    ensures |document| <= budget
  {
    var omitted := NOTHING;
    document := render(omitted);
    k := 0;
    while |document| > budget
      invariant k <= c.Total() && omitted == Dropped(c, k) && document == render(omitted)
      invariant forall j :: 0 <= j < k ==> |render(Dropped(c, j))| > budget
      decreases c.Total() - k
    {
      DropsInOrder(c, k);
      var next := NextDrop(c, omitted);
      if next.None? {
        document := Cut(document, budget);
        return;
      }
      omitted := next.value;
      document := render(omitted);
      k := k + 1;
    }
  }

  // ---- sections and budgets --------------------------------------------------------------

  datatype Error = BadBudget | SkillTooLarge | AgentTooLarge | DelegatedTooLarge | WorkflowTooLarge | OverBudget

  datatype Result = Ok(document: string) | Err(error: Error)

  datatype Request = Request(
    maxChars: int,
    memoryMax: int,
    conversationMax: int,
    skillMax: Option<int>,
    agentMax: Option<int>,
    skills: string,
    agent: string,
    delegated: string,
    conversation: Option<ConversationSection.Context>,
    collapse: string -> string,
    memory: Option<nat -> string>,
    workflow: string)

  predicate BadBudgets(q: Request) {
    || q.maxChars < MIN_CONTEXT_CHARS || q.memoryMax < 1 || q.conversationMax < 1
    || (q.skillMax.Some? && !(0 < q.skillMax.value < q.maxChars))
    || (q.agentMax.Some? && !(0 < q.agentMax.value <= q.maxChars))
  }

  function Separator(section: string): nat {
    if section == "" then 0 else 2
  }

  predicate SkillsTooLarge(q: Request) {
    |q.skills| > (if q.skillMax.Some? then q.skillMax.value else q.maxChars)
      || |q.skills| + Separator(q.skills) + MIN_CONTEXT_CHARS > q.maxChars
  }

  predicate AgentTextTooLarge(q: Request) {
    (q.agentMax.Some? && |q.agent| > q.agentMax.value) || (q.agent != "" && |q.agent| + MIN_CONTEXT_CHARS > q.maxChars)
  }

  function ConversationRoom(q: Request): nat {
    var left := q.maxChars - |q.skills| - Separator(q.skills) - MIN_CONTEXT_CHARS;
    var room := if left < 0 then 0 else left;
    if q.conversationMax < room then (if q.conversationMax < 0 then 0 else q.conversationMax) else room
  }

  function Conversation(q: Request): (section: string)
    ensures |section| <= ConversationRoom(q)
  {
    if q.conversation.Some? && ConversationRoom(q) > 0
    then ConversationSection.Section(q.collapse, q.conversation.value, ConversationRoom(q)) else ""
  }

  function CoreRoom(q: Request): int {
    q.maxChars - |q.skills| - Separator(q.skills) - |Conversation(q)| - Separator(Conversation(q))
  }

  /** The reservations leave the core document at least 998 characters. */
  lemma CoreKeepsItsRoom(q: Request)
    requires !BadBudgets(q) && !SkillsTooLarge(q)
    ensures CoreRoom(q) >= 998
  {
  }

  function Append(document: string, section: string): string {
    if section == "" then document else document + GAP + section
  }

  /** The document before its optional memory section. */
  function Body(q: Request, core: string): string {
    Append(Append(core, q.skills), Conversation(q))
  }

  /** Everything before the first memory header from position i on, or the whole document. */
  function BeforeHeader(document: string, i: nat): string
    requires i <= |document|
    decreases |document| - i
  {
    if i == |document| || OccursAt(MEMORY_HEADER, document, i) then document[..i] else BeforeHeader(document, i + 1)
  }

  lemma {:induction false} BeforeHeaderIs(document: string, i: nat, n: nat)
    requires i <= n <= |document| && (n == |document| || OccursAt(MEMORY_HEADER, document, n))
    requires forall k :: i <= k < n ==> !OccursAt(MEMORY_HEADER, document, k)
    ensures BeforeHeader(document, i) == document[..n]
    decreases n - i
  {
    if i < n {
      BeforeHeaderIs(document, i + 1, n);
    }
  }

  lemma {:induction false} BeforeHeaderShrinks(document: string, i: nat, n: nat)
    requires i <= n <= |document| && OccursAt(MEMORY_HEADER, document, n)
    ensures BeforeHeader(document, i) <= document[..n]
    decreases n - i
  {
    if i < n && !OccursAt(MEMORY_HEADER, document, i) {
      BeforeHeaderShrinks(document, i + 1, n);
    }
  }

  /** A memory section, if there is one, starts with its header. */
  ghost predicate MemoryIsHeaded(q: Request) {
    q.memory.Some? ==> forall n :: q.memory.value(n) == "" || MEMORY_HEADER[2..] <= q.memory.value(n)
  }

  lemma PartChar(text: string, part: string, k: int, t: int)
    requires OccursAt(part, text, k) && 0 <= t < |part|
    ensures text[k + t] == part[t]
  {
    assert text[k..k + |part|][t] == text[k + t];
  }

  /** A header that starts inside the body ends inside it. */
  lemma NoStraddling(body: string, memory: string, k: int)
    requires 0 <= k < |body| && OccursAt(MEMORY_HEADER, body + GAP + memory, k)
    ensures OccursAt(MEMORY_HEADER, body, k)
  {
    var document, at := body + GAP + memory, |body| - k;
    if at == 1 {
      PartChar(document, MEMORY_HEADER, k, 2);
    } else if at < |MEMORY_HEADER| {
      PartChar(document, MEMORY_HEADER, k, at);
    } else {
      assert document[k..k + |MEMORY_HEADER|] == body[k..k + |MEMORY_HEADER|];
    }
  }

  /** The header that introduces the memory section is found where the body ends. */
  lemma HeaderAtEnd(body: string, memory: string)
    requires MEMORY_HEADER[2..] <= memory
    ensures OccursAt(MEMORY_HEADER, body + GAP + memory, |body|)
    ensures forall k :: 0 <= k < |body| ==>
            (OccursAt(MEMORY_HEADER, body + GAP + memory, k) <==> OccursAt(MEMORY_HEADER, body, k))
  {
    var document := body + GAP + memory;
    assert document[|body|..|body| + |MEMORY_HEADER|] == GAP + memory[..|MEMORY_HEADER| - 2] == MEMORY_HEADER;
    forall k | 0 <= k < |body| ensures OccursAt(MEMORY_HEADER, document, k) <==> OccursAt(MEMORY_HEADER, body, k) {
      if k + |MEMORY_HEADER| <= |body| {
        assert document[k..k + |MEMORY_HEADER|] == body[k..k + |MEMORY_HEADER|];
      } else if OccursAt(MEMORY_HEADER, document, k) {
        NoStraddling(body, memory, k);
      }
    }
  }

  /** A prefix without a memory header survives the removal of an over-long memory section, whatever follows it. */
  lemma PrefixSurvives(prefix: string, rest: string)
    requires !Occurs(MEMORY_HEADER, prefix)
    ensures prefix <= BeforeHeader(prefix, 0) && prefix <= BeforeHeader(prefix + GAP + rest, 0)
  {
    var document := prefix + GAP + rest;
    forall k | 0 <= k < |prefix| ensures !OccursAt(MEMORY_HEADER, prefix, k) && !OccursAt(MEMORY_HEADER, document, k) {
      if OccursAt(MEMORY_HEADER, document, k) {
        NoStraddling(prefix, rest, k);
      }
    }
    BeforeHeaderKeeps(prefix, 0, |prefix|);
    BeforeHeaderKeeps(document, 0, |prefix|);
    assert document[..|prefix|] == prefix;
  }

  lemma {:induction false} BeforeHeaderKeeps(document: string, i: nat, n: nat)
    requires i <= n <= |document| && forall k :: i <= k < n ==> !OccursAt(MEMORY_HEADER, document, k)
    ensures document[..n] <= BeforeHeader(document, i)
    decreases n - i
  {
    if i < n {
      BeforeHeaderKeeps(document, i + 1, n);
    } else {
      BeforeHeaderReaches(document, i);
    }
  }

  lemma {:induction false} BeforeHeaderReaches(document: string, i: nat)
    requires i <= |document|
    ensures document[..i] <= BeforeHeader(document, i) <= document
    decreases |document| - i
  {
    if i < |document| && !OccursAt(MEMORY_HEADER, document, i) {
      BeforeHeaderReaches(document, i + 1);
    }
  }

  /**
   Removing an over-long memory section restores the body exactly when the body contains no memory header of its own.
   */
  lemma RemovalRestoresIff(body: string, memory: string)
    requires MEMORY_HEADER[2..] <= memory
    ensures BeforeHeader(body + GAP + memory, 0) <= body
    ensures BeforeHeader(body + GAP + memory, 0) == body <==> !Occurs(MEMORY_HEADER, body)
  {
    var document := body + GAP + memory;
    HeaderAtEnd(body, memory);
    assert document[..|body|] == body;
    BeforeHeaderShrinks(document, 0, |body|);
    if Occurs(MEMORY_HEADER, body) {
      var k :| 0 <= k <= |body| && OccursAt(MEMORY_HEADER, body, k);
      BeforeHeaderShrinks(document, 0, k);
      assert |BeforeHeader(document, 0)| <= k < |body|;
    } else {
      BeforeHeaderIs(document, 0, |body|);
    }
  }

  // ---- the whole document ----------------------------------------------------------------

  /** The document with its memory section, as far as there is room to ask for one. */
  function WithMemory(q: Request, body: string): string {
    var room := q.maxChars - |body| - 2;
    if q.memory.None? || room <= 0 || q.memoryMax < 1 then body
    else Append(body, q.memory.value(if q.memoryMax < room then q.memoryMax else room))
  }

  lemma BodyFits(q: Request, core: string)
    requires |core| <= CoreRoom(q)
    ensures |Body(q, core)| <= q.maxChars
  {
  }

  /**
   If a headed memory section makes the document too long, the header is found and cutting there leaves at most the
   body.
   */
  lemma OverlongIsHeaded(q: Request, body: string)
    ensures MemoryIsHeaded(q) && |body| <= q.maxChars < |WithMemory(q, body)| ==>
              var document := WithMemory(q, body);
              && q.memory.Some? && Occurs(MEMORY_HEADER, document)
              && BeforeHeader(document, 0) <= body
              && (!Occurs(MEMORY_HEADER, body) ==> BeforeHeader(document, 0) == body)
  {
    if MemoryIsHeaded(q) && |body| <= q.maxChars < |WithMemory(q, body)| {
      var room := q.maxChars - |body| - 2;
      var memory := q.memory.value(if q.memoryMax < room then q.memoryMax else room);
      RemovalRestoresIff(body, memory);
      HeaderAtEnd(body, memory);
    }
  }

  /** The document starts with this prefix, whole sections first. */
  ghost predicate Leads(prefix: string, document: string) {
    document == prefix || exists rest :: document == prefix + GAP + rest
  }

  lemma AppendLeads(prefix: string, document: string, section: string)
    requires Leads(prefix, document)
    ensures Leads(prefix, Append(document, section))
  {
    if section != "" {
      if document == prefix {
        assert Append(document, section) == prefix + GAP + section;
      } else {
        var rest :| document == prefix + GAP + rest;
        assert Append(document, section) == prefix + GAP + (rest + GAP + section);
      }
    }
  }

  /** What has no memory header of its own is never lost. */
  ghost predicate Survives(prefix: string, document: string) {
    !Occurs(MEMORY_HEADER, prefix) ==> prefix <= document
  }

  lemma LeaderSurvives(prefix: string, document: string)
    requires Leads(prefix, document)
    ensures prefix <= document && Survives(prefix, BeforeHeader(document, 0))
  {
    if !Occurs(MEMORY_HEADER, prefix) {
      if document == prefix {
        PrefixSurvives(prefix, "");
      } else {
        var rest :| document == prefix + GAP + rest;
        PrefixSurvives(prefix, rest);
      }
    }
  }

  /** Section by section: each survives if it and what stands before it are free of memory headers. */
  ghost predicate SectionsSurvive(q: Request, core: string, document: string) {
    Survives(core, document) && Survives(Append(core, q.skills), document) && Survives(Body(q, core), document)
  }

  lemma DocumentSurvives(q: Request, core: string)
    ensures var document := WithMemory(q, Body(q, core));
            SectionsSurvive(q, core, Append(document, q.workflow))
              && SectionsSurvive(q, core, BeforeHeader(document, 0))
  {
    var skilled, body := Append(core, q.skills), Body(q, core);
    var document := WithMemory(q, body);
    AppendLeads(core, core, q.skills);
    AppendLeads(core, skilled, Conversation(q));
    AppendLeads(skilled, skilled, Conversation(q));
    MemoryLeads(q, core, body);
    MemoryLeads(q, skilled, body);
    MemoryLeads(q, body, body);
    LeaderSurvives(core, document);
    LeaderSurvives(skilled, document);
    LeaderSurvives(body, document);
  }

  lemma MemoryLeads(q: Request, prefix: string, body: string)
    requires Leads(prefix, body)
    ensures Leads(prefix, WithMemory(q, body))
  {
    var room := q.maxChars - |body| - 2;
    if q.memory.Some? && room > 0 && q.memoryMax >= 1 {
      AppendLeads(prefix, body, q.memory.value(if q.memoryMax < room then q.memoryMax else room));
    }
  }

  /** The guards on the inputs are passed. */
  predicate Admitted(q: Request) {
    !BadBudgets(q) && !SkillsTooLarge(q) && !AgentTextTooLarge(q)
  }

  /** Agent text and delegated input survived the shrinking. */
  predicate Intact(q: Request, core: string) {
    Admitted(q) && Occurs(q.agent, core) && Occurs(q.delegated, core)
  }

  lemma NothingOccurs(text: string)
    ensures Occurs("", text)
  {
    assert OccursAt("", text, 0);
  }

  /**
   Never over the budget.  The core is the first fitting drop state; agent text and delegated input are in it, skills
   and conversation follow it, and each is in the result if it and what stands before it are free of memory headers.
   Every error has its one cause, and with a headed memory section the last error cannot occur.
   */
  method Build(q: Request, c: Counts, render: Omitted -> string) returns (r: Result, ghost core: string, ghost k: nat)
    ensures r.Ok? ==> |r.document| <= q.maxChars
    ensures Admitted(q) ==>
            CoreRoom(q) >= 998 && FirstFitting(c, render, CoreRoom(q), k) && core == Core(c, render, CoreRoom(q), k)
    ensures r == Err(BadBudget) <==> BadBudgets(q)
    ensures r == Err(SkillTooLarge) <==> !BadBudgets(q) && SkillsTooLarge(q)
    ensures r == Err(AgentTooLarge) <==>
            !BadBudgets(q) && !SkillsTooLarge(q) && (AgentTextTooLarge(q) || !Occurs(q.agent, core))
    ensures r == Err(DelegatedTooLarge) <==> Admitted(q) && Occurs(q.agent, core) && !Occurs(q.delegated, core)
    ensures r == Err(WorkflowTooLarge) <==>
            Intact(q, core) && q.workflow != "" && |WithMemory(q, Body(q, core))| + |q.workflow| + 2 > q.maxChars
    ensures r.Ok? ==> Intact(q, core)
    ensures r.Ok? && |WithMemory(q, Body(q, core))| <= q.maxChars ==>
            r.document == Append(WithMemory(q, Body(q, core)), q.workflow)
    ensures r.Ok? ==> SectionsSurvive(q, core, r.document)
    ensures MemoryIsHeaded(q) ==> r != Err(OverBudget)
  {
    core, k := "", 0;
    if BadBudgets(q) {
      return Err(BadBudget), core, k;
    }
    if SkillsTooLarge(q) {
      return Err(SkillTooLarge), core, k;
    }
    if AgentTextTooLarge(q) {
      return Err(AgentTooLarge), core, k;
    }
    CoreKeepsItsRoom(q);
    var document: string;
    document, k := Shrink(c, render, CoreRoom(q));
    core := document;
    NothingOccurs(document);
    if q.agent != "" && !Occurs(q.agent, document) {
      return Err(AgentTooLarge), core, k;
    }
    if q.delegated != "" && !Occurs(q.delegated, document) {
      return Err(DelegatedTooLarge), core, k;
    }
    BodyFits(q, core);
    OverlongIsHeaded(q, Body(q, core));
    DocumentSurvives(q, core);
    document := WithMemory(q, Body(q, document));
    if q.workflow != "" {
      if |document| + |q.workflow| + 2 > q.maxChars {
        return Err(WorkflowTooLarge), core, k;
      }
      document := document + GAP + q.workflow;
      return Ok(document), core, k;
    }
    if |document| > q.maxChars && q.memory.Some? && Occurs(MEMORY_HEADER, document) {
      document := BeforeHeader(document, 0);
    }
    if |document| > q.maxChars {
      return Err(OverBudget), core, k;
    }
    return Ok(document), core, k;
  }
}
