/** The builder as the client library runs it: an object that keeps the templates it has defined. */
module BuilderEngine {
  import opened Frames
  import opened MachineWords
  import opened StepCodec
  import opened AgentRules
  import opened TransactionBuilder
  import BuilderSound

  method SearchLowestSetBit(value: W32) returns (bit: nat)
    ensures bit == LowestSetBit(value)
  {
    bit := 0;
    while bit < 32 && bit !in value
      invariant 0 <= bit <= 32 && LowestFrom(value, 0) == LowestFrom(value, bit)
    {
      bit := bit + 1;
    }
    if bit == 32 {
      bit := 0;
    }
  }

  method CheckNodes(r: Response) returns (ok: bool)
    ensures ok <==> NodesOk(r)
  {
    if !r.hasNodes {
      return r.nodes == [] && r.allowedMissing == 0;
    }
    if |r.nodes| == 0 || |r.nodes| > ROSTER_MAX || r.allowedMissing >= |r.nodes| {
      return false;
    }
    var ignored := r.success.ignoredBits;
    var shift := SearchLowestSetBit(ignored);
    var inByte := r.nodeFrom == NODE_IN_BYTE;
    if inByte && r.nodeByte >= PAYLOAD_MAX_FD {
      return false;
    }
    if !inByte && (r.nodeFrom != NODE_IN_ID || ignored == {} || ignored == ANY_ID_BITS) {
      return false;
    }
    var i := 0;
    while i < |r.nodes|
      invariant 0 <= i <= |r.nodes|
      invariant forall k | 0 <= k < i :: if inByte then r.nodes[k] <= Ones(8) else NodeFits(r.nodes[k], shift, ignored)
    {
      assert r.nodes[i] in r.nodes;
      if inByte {
        if !(r.nodes[i] <= Ones(8)) {
          return false;
        }
      } else {
        if !NodeFits(r.nodes[i], shift, ignored) {
          return false;
        }
      }
      i := i + 1;
    }
    return true;
  }

  class BuilderObject {
    const bitrateSwitch: bool
    var roster: Option<Roster>
    var templates: seq<Template>
    var lastTemplate: Option<nat>

    ghost function State(): Builder
      reads this
    {
      Builder(bitrateSwitch, roster, templates, lastTemplate)
    }

    ghost predicate Valid()
      reads this
    {
      BuilderOk(State())
    }

    constructor (bitrateSwitch: bool)
      ensures Valid() && State() == Builder(bitrateSwitch, None, [], None)
    {
      this.bitrateSwitch := bitrateSwitch;
      roster, templates, lastTemplate := None, [], None;
    }

    method FindTemplate(t: Template) returns (found: Option<nat>)
      requires Valid()
      ensures found == TransactionBuilder.FindTemplate(State(), t)
    {
      if lastTemplate.Some? && templates[lastTemplate.value].(id := 0) == t {
        return lastTemplate;
      }
      var i := 0;
      while i < |templates|
        invariant 0 <= i <= |templates|
        invariant FirstLike(templates, t, 0) == FirstLike(templates, t, i)
      {
        if templates[i].(id := 0) == t {
          return Some(i);
        }
        i := i + 1;
      }
      return None;
    }

    /** The template's index, or None when the agent's 16 are taken; defines it when it is new. */
    method PlaceTemplate(t: Template) returns (p: Placed)
      requires Valid() && t.id == 0
      modifies this`templates, this`lastTemplate
      ensures Valid() && p == TransactionBuilder.PlaceTemplate(old(State()), t)
      ensures State() == if p.NoRoom? then old(State()) else old(State()).(templates := p.templates, lastTemplate := Some(p.index))
    {
      var found := FindTemplate(t);
      if found.Some? {
        lastTemplate := found;
        return Placed(templates, found.value, None);
      }
      if |templates| == TEMPLATES_MAX {
        return NoRoom;
      }
      var defined := t.(id := |templates|);
      templates, lastTemplate := templates + [defined], Some(|templates|);
      return Placed(templates, |templates| - 1, Some(defined));
    }

    method BuildMessageRecords(s: Step, templateId: u8) returns (records: seq<TxnStep>)
      requires StepOk(s) && s.isotp.Some? && s.data.Some?
      ensures records == MessageRecords(s, templateId, s.data.value)
    {
      var data := s.data.value;
      records := [];
      var offset := 0;
      while offset + MESSAGE_RECORD_BYTES < |data|
        invariant 0 <= offset < |data|
        invariant MessageRecords(s, templateId, data) == records + MessageRecords(s, templateId, data[offset..])
      {
        ghost var rest := data[offset..];
        records := records + [MessageRecord(s, templateId, data[offset..offset + MESSAGE_RECORD_BYTES], false)];
        offset := offset + MESSAGE_RECORD_BYTES;
        assert rest[..MESSAGE_RECORD_BYTES] == data[offset - MESSAGE_RECORD_BYTES..offset];
        assert rest[MESSAGE_RECORD_BYTES..] == data[offset..];
      }
      records := records + [MessageRecord(s, templateId, data[offset..], true)];
    }

    method Step(s: TransactionBuilder.Step) returns (build: Option<Build>)
      requires Valid()
      modifies this
      ensures Valid()
      ensures match BuildStep(old(State()), s)
        case Refused => build.None? && State() == old(State())
        case Built(after, made) => build == Some(made) && State() == after
    {
      var nodesOk := true;
      if s.response.Some? {
        nodesOk := CheckNodes(s.response.value);
      }
      if !nodesOk || !StepOk(s) {
        return None;
      }
      var names := NamesNodes(s);
      if names && roster.Some? && roster.value != ToRoster(s.response.value) {
        return None;
      }
      var p := PlaceTemplate(BuildTemplate(s));
      if p.NoRoom? {
        return None;
      }
      var defines := names && roster.None?;
      if defines {
        roster := Some(ToRoster(s.response.value));
      }
      var records := [];
      if s.isotp.Some? && s.data.Some? {
        records := BuildMessageRecords(s, p.index);
      } else {
        records := [FrameRecord(s, bitrateSwitch, p.index)];
      }
      return Some(Build(if defines then roster else None, p.defined, records));
    }

    method Rewind(mark: BuilderSound.Mark)
      requires Valid() && mark.templateCount <= |templates|
      modifies this
      ensures State() == BuilderSound.Rewind(old(State()), mark)
    {
      roster := if mark.hasRoster then roster else None;
      templates := templates[..mark.templateCount];
      lastTemplate := mark.lastTemplate;
    }
  }
}
