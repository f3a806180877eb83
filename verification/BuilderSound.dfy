/** What the builder accepts, the agent accepts: definitions, records and messages. */
module BuilderSound {
  import opened Frames
  import opened MachineWords
  import opened StepCodec
  import opened AgentRules
  import opened TransactionBuilder

  /** The agent holds what the builder has sent out. */
  predicate Synced(b: Builder, d: Definitions) {
    && BuilderOk(b) && d.roster == b.roster
    && (b.roster.Some? ==> IsRosterValid(b.roster.value))
    && (forall i: u8 | i in d.templates :: i < |b.templates|)
    && forall i: u8 | i < |b.templates| :: i in d.templates && d.templates[i] == b.templates[i]
  }

  /** The agent takes the roster, then the template; None is the abort with reason invalid step. */
  function TakeDefinitions(d: Definitions, build: Build): Option<Definitions> {
    if build.roster.Some? && !AcceptsRoster(d, build.roster.value) then None
    else
      var named := if build.roster.Some? then DefineRoster(d, build.roster.value) else d;
      if build.template.None? then Some(named)
      else if !IsTemplateValid(named, build.template.value) then None
      else Some(DefineTemplate(named, build.template.value))
  }

  /** None if the agent would abort with reason invalid step on anything the step sends. */
  function TakeBuild(d: Definitions, build: Build): Option<Definitions> {
    match TakeDefinitions(d, build)
    case None => None
    case Some(d') => if forall r | r in build.records :: AcceptsRecord(d', r) then Some(d') else None
  }

  lemma RosterIsValid(r: Response)
    requires r.hasNodes && NodesOk(r)
    ensures IsRosterValid(ToRoster(r)) && |ToRoster(r).nodes| == |r.nodes|
  {
  }

  /** The template of an accepted step is valid for an agent that holds the step's roster. */
  lemma TemplateIsValid(s: Step, d: Definitions, n: u8)
    requires StepOk(s) && n < TEMPLATES_MAX && n !in d.templates
    requires s.response.Some? && s.response.value.hasNodes ==> d.roster == Some(ToRoster(s.response.value))
    ensures IsTemplateValid(d, BuildTemplate(s).(id := n))
  {
    if s.isotp.Some? {
      LegalLengthFitsAgent(s.isotp.value);
    }
  }

  lemma LegalLengthFitsAgent(link: IsotpSpec)
    requires link.fd ==> PAYLOAD_MAX_CLASSIC <= link.fdDataLength && IsFrameLength(link.fdDataLength)
    requires !link.fd ==> !link.bitrateSwitch
    ensures IsIsotpDataLengthValid(ToIsotpParams(link))
  {
    if link.fd {
      assert link.fdDataLength <= PAYLOAD_MAX_FD;
    }
  }

  /** What a record takes from its step's template. */
  predicate Suits(s: Step, t: Template) {
    && t.kind == (if s.isotp.Some? then TYPE_ISOTP else TYPE_GENERIC)
    && (s.response.Some? ==> IsWaitingMode(t.mode))
  }

  lemma {:induction false} MessageRecordsAccepted(s: Step, id: u8, rest: seq<u8>, d: Definitions)
    requires StepOk(s) && s.isotp.Some? && rest != []
    requires id < TEMPLATES_MAX && id in d.templates && Suits(s, d.templates[id])
    ensures forall r | r in MessageRecords(s, id, rest) :: AcceptsRecord(d, r)
    decreases |rest|
  {
    if |rest| > MESSAGE_RECORD_BYTES {
      MessageRecordsAccepted(s, id, rest[MESSAGE_RECORD_BYTES..], d);
    }
  }

  lemma FrameRecordAccepted(s: Step, bitrateSwitch: bool, id: u8, d: Definitions)
    requires StepOk(s) && (s.isotp.None? || s.data.None?)
    requires id < TEMPLATES_MAX && id in d.templates && Suits(s, d.templates[id])
    ensures AcceptsRecord(d, FrameRecord(s, bitrateSwitch, id))
  {
    assert HasFlag(FLAG_FD + FLAG_BRS, FLAG_FD) && HasFlag(FLAG_FD, FLAG_FD);
  }

  lemma RecordsAccepted(s: Step, bitrateSwitch: bool, id: u8, d: Definitions)
    requires StepOk(s) && id < TEMPLATES_MAX && id in d.templates && Suits(s, d.templates[id])
    ensures forall r | r in BuildRecords(s, bitrateSwitch, id) :: AcceptsRecord(d, r)
  {
    if s.isotp.Some? && s.data.Some? {
      MessageRecordsAccepted(s, id, s.data.value, d);
    } else {
      FrameRecordAccepted(s, bitrateSwitch, id, d);
    }
  }

  /** Taking what a placement defines keeps builder and agent in step. */
  lemma PlacementTaken(b: Builder, d: Definitions, t: Template, p: Placed, after: Builder, build: Build)
    requires Synced(b, d) && t.id == 0 && p == PlaceTemplate(b, t) && p.Placed?
    requires after.templates == p.templates && after.lastTemplate == Some(p.index)
    requires build.template == p.defined && build.roster == (if b.roster.None? then after.roster else None)
    requires b.roster.Some? ==> after.roster == b.roster
    requires after.roster.Some? ==> IsRosterValid(after.roster.value)
    requires forall n: u8 | n < TEMPLATES_MAX && n !in d.templates :: IsTemplateValid(d.(roster := after.roster), t.(id := n))
    ensures TakeDefinitions(d, build).Some?
    ensures var d' := TakeDefinitions(d, build).value;
      Synced(after, d') && p.index in d'.templates && d'.templates[p.index] == t.(id := p.index)
  {
    var named := d.(roster := after.roster);
    assert (if build.roster.Some? then DefineRoster(d, build.roster.value) else d) == named;
    if p.defined.Some? {
      var n: u8 := p.index;
      assert n !in d.templates;
      assert IsTemplateValid(named, t.(id := n));
    }
  }

  /** The definitions of an accepted step are taken, and the agent then holds the step's template. */
  lemma DefinitionsNeverRefused(b: Builder, d: Definitions, s: Step)
    requires Synced(b, d) && BuildStep(b, s).Built?
    ensures var o, p := BuildStep(b, s), PlaceTemplate(b, BuildTemplate(s));
      && p.Placed? && TakeDefinitions(d, o.build).Some?
      && var taken := TakeDefinitions(d, o.build).value;
        && Synced(o.builder, taken) && p.index in taken.templates
        && taken.templates[p.index] == BuildTemplate(s).(id := p.index)
  {
    var o, t := BuildStep(b, s), BuildTemplate(s);
    if NamesNodes(s) {
      RosterIsValid(s.response.value);
    }
    var named := d.(roster := o.builder.roster);
    forall n: u8 | n < TEMPLATES_MAX && n !in d.templates ensures IsTemplateValid(named, t.(id := n)) {
      TemplateIsValid(s, named, n);
    }
    PlacementTaken(b, d, t, PlaceTemplate(b, t), o.builder, o.build);
  }

  /** One accepted step: nothing of it is refused, and builder and agent agree again. */
  lemma StepNeverRefused(b: Builder, d: Definitions, s: Step)
    requires Synced(b, d) && BuildStep(b, s).Built?
    ensures var o := BuildStep(b, s);
      && TakeBuild(d, o.build).Some?
      && Synced(o.builder, TakeBuild(d, o.build).value)
  {
    var o, p := BuildStep(b, s), PlaceTemplate(b, BuildTemplate(s));
    DefinitionsNeverRefused(b, d, s);
    TemplateSuits(s);
    RecordsAccepted(s, b.bitrateSwitch, p.index, TakeDefinitions(d, o.build).value);
  }

  lemma TemplateSuits(s: Step)
    requires StepOk(s)
    ensures Suits(s, BuildTemplate(s))
  {
  }

  /** The builder and the agent over any sequence of steps; refused steps send nothing. */
  function TakeAll(b: Builder, d: Definitions, steps: seq<Step>): Option<(Builder, Definitions)>
    requires BuilderOk(b)
    decreases |steps|
  {
    if steps == [] then Some((b, d))
    else
      match BuildStep(b, steps[0])
      case Refused => TakeAll(b, d, steps[1..])
      case Built(b', build) =>
        match TakeBuild(d, build)
        case None => None
        case Some(d') => if BuilderOk(b') then TakeAll(b', d', steps[1..]) else None
  }

  lemma {:induction false} NeverRefused(b: Builder, d: Definitions, steps: seq<Step>)
    requires Synced(b, d)
    ensures TakeAll(b, d, steps).Some?
    decreases |steps|
  {
    if steps != [] {
      var o := BuildStep(b, steps[0]);
      if o.Built? {
        StepNeverRefused(b, d, steps[0]);
        NeverRefused(o.builder, TakeBuild(d, o.build).value, steps[1..]);
      } else {
        NeverRefused(b, d, steps[1..]);
      }
    }
  }

  /** From the first step of a transaction on, no step the builder accepts is refused as invalid. */
  lemma WholeTransactionAccepted(bitrateSwitch: bool, steps: seq<Step>)
    ensures TakeAll(Builder(bitrateSwitch, None, [], None), NO_DEFINITIONS, steps).Some?
  {
    NeverRefused(Builder(bitrateSwitch, None, [], None), NO_DEFINITIONS, steps);
  }

  // ---------- one template per shape ----------

  predicate AllDistinct(templates: seq<Template>) {
    forall i, j | 0 <= i < j < |templates| :: templates[i].(id := 0) != templates[j].(id := 0)
  }

  /** No two templates of a transaction are alike, so at most 16 distinct shapes are the only limit. */
  lemma ShapesStayDistinct(b: Builder, s: Step)
    requires BuilderOk(b) && AllDistinct(b.templates) && BuildStep(b, s).Built?
    ensures AllDistinct(BuildStep(b, s).builder.templates) && BuilderOk(BuildStep(b, s).builder)
    ensures b.templates <= BuildStep(b, s).builder.templates
  {
    var o := BuildStep(b, s);
    if o.build.template.Some? {
      forall i | 0 <= i < |b.templates| ensures b.templates[i].(id := 0) != o.build.template.value.(id := 0) {
      }
    }
  }

  /** Steps that differ only in what their qualifier's bytes are compared with use one template. */
  lemma ComparedValuesShareATemplate(s: Step, values: W64)
    requires StepOk(s) && s.qualifier.Some?
    ensures StepOk(s.(qualifier := Some(s.qualifier.value.(values := values))))
    ensures BuildTemplate(s.(qualifier := Some(s.qualifier.value.(values := values)))) == BuildTemplate(s)
  {
  }

  /** A second step of the same shape defines nothing: its records name the template already there. */
  lemma SameShapeDefinesNothing(b: Builder, s: Step, again: Step)
    requires BuilderOk(b) && BuildStep(b, s).Built? && StepOk(again)
    requires BuildTemplate(again) == BuildTemplate(s) && again.response == s.response
    ensures BuilderOk(BuildStep(b, s).builder)
    ensures var o := BuildStep(BuildStep(b, s).builder, again);
      o.Built? && o.build.template.None? && o.build.roster.None? && o.builder == BuildStep(b, s).builder
  {
    var b', t := BuildStep(b, s).builder, BuildTemplate(s);
    assert b'.templates[b'.lastTemplate.value].(id := 0) == t;
    assert FindTemplate(b', t) == b'.lastTemplate;
  }

  // ---------- rewinding ----------

  datatype Mark = Mark(hasRoster: bool, templateCount: nat, lastTemplate: Option<nat>)

  function MarkOf(b: Builder): Mark {
    Mark(b.roster.Some?, |b.templates|, b.lastTemplate)
  }

  function Rewind(b: Builder, m: Mark): Builder
    requires m.templateCount <= |b.templates|
  {
    b.(roster := if m.hasRoster then b.roster else None, templates := b.templates[..m.templateCount], lastTemplate := m.lastTemplate)
  }

  /** Rewinding undoes a step that was not sent, whatever it defined. */
  lemma RewindUndoesStep(b: Builder, s: Step)
    requires BuilderOk(b) && BuildStep(b, s).Built?
    ensures var b' := BuildStep(b, s).builder;
      |b.templates| <= |b'.templates| && Rewind(b', MarkOf(b)) == b
  {
  }

  // ---------- messages ----------

  /** A message takes no more records than its length asks for: never more than the 17 of a build. */
  lemma {:induction false} RecordCount(s: Step, id: u8, rest: seq<u8>)
    requires StepOk(s) && s.isotp.Some? && rest != []
    ensures var n := |MessageRecords(s, id, rest)|;
      (n - 1) * MESSAGE_RECORD_BYTES < |rest| <= n * MESSAGE_RECORD_BYTES
    decreases |rest|
  {
    if |rest| > MESSAGE_RECORD_BYTES {
      RecordCount(s, id, rest[MESSAGE_RECORD_BYTES..]);
    }
  }
}
