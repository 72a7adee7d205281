/**
  The pipeline definition as the engine receives it: a tree of steps, each
  tagged with its kind and carrying the string attributes its document node
  declared, plus its nested child steps (`sequence_list`).
 */
module Steps {
  import opened Values

  /** One kind per entry of the step-kind registry, named after its class. */
  datatype Kind =
    | InSequence
    | OutSequence
    | FaultSequence
    | Property
    | Log
    | Switch
    | Case
    | Default
    | ProcessResponseMediator
    | Payload
    | Use
    | ResponseMediator
    | HttpHeaderMediator
    | PdbMediator
    | NamedSequence

  datatype Step = Step(kind: Kind, attrs: map<string, string>, children: seq<Step>)

  /** A declared attribute of a step, or None where Python's `hasattr` is false. */
  function Attr(s: Step, name: string): Option<string>
  {
    if name in s.attrs then Some(s.attrs[name]) else None
  }

  /** The document tag that selects each kind. */
  function TagOf(k: Kind): string
  {
    match k
    case InSequence => "inSequence"
    case OutSequence => "outSequence"
    case FaultSequence => "faultSequence"
    case Property => "property"
    case Log => "log"
    case Switch => "switch"
    case Case => "case"
    case Default => "default"
    case ProcessResponseMediator => "processresponse"
    case Payload => "payload"
    case Use => "use"
    case ResponseMediator => "response"
    case HttpHeaderMediator => "header"
    case PdbMediator => "pdb"
    case NamedSequence => "sequence"
  }

  /** The registry lookup `HANDLERS.get(tag)`: None for an unknown tag. */
  function KindOfTag(tag: string): (k: Option<Kind>)
    ensures k.Some? ==> TagOf(k.value) == tag
  {
    match tag
    case "inSequence" => Some(InSequence)
    case "outSequence" => Some(OutSequence)
    case "faultSequence" => Some(FaultSequence)
    case "property" => Some(Property)
    case "log" => Some(Log)
    case "switch" => Some(Switch)
    case "case" => Some(Case)
    case "default" => Some(Default)
    case "processresponse" => Some(ProcessResponseMediator)
    case "payload" => Some(Payload)
    case "use" => Some(Use)
    case "response" => Some(ResponseMediator)
    case "header" => Some(HttpHeaderMediator)
    case "pdb" => Some(PdbMediator)
    case "sequence" => Some(NamedSequence)
    case _ => None
  }

  /** Every kind is reachable from exactly its own tag, so the table is a bijection onto its tags. */
  lemma TagRoundTrip(k: Kind)
    ensures KindOfTag(TagOf(k)) == Some(k)
  {
  }
}
