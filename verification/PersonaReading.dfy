/** Resolving a persona trace from audit views, and the round trip through the audit store. */
module PersonaReading {
  import opened Wrappers
  import opened Ordering
  import opened Text
  import opened Substrings
  import opened AuditChain
  import opened PersonaTrace

  type Fields = map<string, FieldView>

  /** The fields by name; a later one of the same name wins. */
  function FieldMap(fields: seq<FieldView>): Fields
  {
    if fields == [] then map[] else FieldMap(fields[..|fields| - 1])[fields[|fields| - 1].name := fields[|fields| - 1]]
  }

  predicate Mentions(fields: Fields, invocation: string)
  {
    INVOCATION in fields && !fields[INVOCATION].redacted && fields[INVOCATION].value == invocation
  }

  // ---- identity ------------------------------------------------------------------------------------

  /** The value a trace field takes from the view, after the value it has. */
  function Adopt(fields: Fields, name: string, held: string): Result<string>
  {
    if name !in fields || fields[name].redacted || fields[name].value == "" then Err(Unauthorized)
    else if held != "" && held != fields[name].value then Err(ChainTampered)
    else Ok(fields[name].value)
  }

  function ApplyIdentity(fields: Fields, t: Trace): Result<Trace>
  {
    match Adopt(fields, "persona.id", t.persona)
    case Err(e) => Err(e)
    case Ok(persona) =>
      match Adopt(fields, "persona.version", t.version)
      case Err(e) => Err(e)
      case Ok(version) =>
        match Adopt(fields, "persona.installation_id", t.installation)
        case Err(e) => Err(e)
        case Ok(installation) =>
          match Adopt(fields, "persona.conversation_id", t.conversation)
          case Err(e) => Err(e)
          case Ok(conversation) =>
            match Adopt(fields, "persona.invoking_post_id", t.post)
            case Err(e) => Err(e)
            case Ok(post) =>
              Ok(t.(persona := persona, version := version, installation := installation, conversation := conversation, post := post))
  }

  // ---- context -------------------------------------------------------------------------------------

  const NO_EVIDENCE := Evidence("", "", "", "")

  function ItemAt(m: map<nat, Evidence>, i: nat): Evidence { if i in m then m[i] else NO_EVIDENCE }

  function Learn(m: map<nat, Evidence>, f: FieldView): Result<map<nat, Evidence>>
  {
    var k := ParseName(f.name);
    if k.NotContext? then Ok(m)
    else if f.redacted then Err(Unauthorized)
    else if k.Malformed? then Err(ChainTampered)
    else
      var item := ItemAt(m, k.index);
      var prior := ValueOf(item, k.suffix);
      if prior != "" && prior != f.value then Err(ChainTampered)
      else if k.suffix !in SUFFIXES then Err(ChainTampered)
      else Ok(m[k.index := WithValue(item, k.suffix, f.value)])
  }

  /** The fields in the order the map happens to be ranged over. */
  function Collect(m: map<nat, Evidence>, fields: Fields, order: seq<string>): Result<map<nat, Evidence>>
    requires forall i :: 0 <= i < |order| ==> order[i] in fields
  {
    if order == [] then Ok(m)
    else
      match Collect(m, fields, order[..|order| - 1])
      case Err(e) => Err(e)
      case Ok(before) => assert order[|order| - 1] in fields; Learn(before, fields[order[|order| - 1]])
  }

  /** An order in which Go may range over a map with these keys. */
  ghost predicate Listing(order: seq<string>, keys: set<string>)
  {
    (forall i :: 0 <= i < |order| ==> order[i] in keys) && (forall k :: k in keys ==> k in order)
  }

  // ---- the whole trace -----------------------------------------------------------------------------

  datatype Progress = Progress(trace: Trace, evidence: map<nat, Evidence>, found: bool)

  function Begin(invocation: string): Progress { Progress(Trace(invocation, "", "", "", "", "", [], []), map[], false) }

  function WithEvent(events: seq<string>, id: string): seq<string> { if id in events then events else events + [id] }

  function Read(p: Progress, view: View, order: seq<string>): Result<Progress>
    requires forall i :: 0 <= i < |order| ==> order[i] in FieldMap(view.fields)
  {
    var fields := FieldMap(view.fields);
    if !Mentions(fields, p.trace.invocation) then Ok(p)
    else
      match ApplyIdentity(fields, p.trace)
      case Err(e) => Err(e)
      case Ok(t) =>
        match Collect(p.evidence, fields, order)
        case Err(e) => Err(e)
        case Ok(m) => Ok(Progress(t.(events := WithEvent(t.events, view.entry.eventId)), m, true))
  }

  ghost predicate OrdersOk(views: seq<View>, orders: seq<seq<string>>)
  {
    |orders| == |views| && forall i :: 0 <= i < |views| ==> Listing(orders[i], FieldMap(views[i].fields).Keys)
  }

  ghost function Scan(views: seq<View>, invocation: string, orders: seq<seq<string>>): Result<Progress>
    requires OrdersOk(views, orders)
  {
    if views == [] then Ok(Begin(invocation))
    else
      var n := |views| - 1;
      match Scan(views[..n], invocation, orders[..n])
      case Err(e) => Err(e)
      case Ok(p) => assert Listing(orders[n], FieldMap(views[n].fields).Keys); Read(p, views[n], orders[n])
  }

  predicate Complete(e: Evidence) { e.post != "" && Sha256Text(e.digest) && (e.taint == INSTRUCTION || e.taint == PEER) }

  /** The context the evidence adds up to: its items by ascending index, each complete. */
  ghost predicate Assembled(m: map<nat, Evidence>, context: seq<Evidence>, indices: seq<nat>)
  {
    && Ascends(indices) && (forall i :: i in m <==> i in indices) && |context| == |indices|
    && forall j :: 0 <= j < |indices| ==> indices[j] in m && context[j] == m[indices[j]] && Complete(context[j])
  }

  /** The answer that a scan allows. */
  ghost predicate Concludes(p: Progress, r: Result<Trace>)
  {
    if !p.found then r == Err(InvalidEntry)
    else if exists i :: i in p.evidence && !Complete(p.evidence[i]) then r == Err(ChainTampered)
    else r.Ok? && r.value == p.trace.(events := Sort(LexLe, p.trace.events), context := r.value.context)
         && exists indices :: Assembled(p.evidence, r.value.context, indices)
  }

  /** r is what resolving the views answers when the maps are ranged over in these orders. */
  ghost predicate Resolves(views: seq<View>, invocation: string, orders: seq<seq<string>>, r: Result<Trace>)
    requires OrdersOk(views, orders)
  {
    if Blank(invocation) then r == Err(InvalidEntry)
    else
      match Scan(views, invocation, orders)
      case Err(e) => r == Err(e)
      case Ok(p) => Concludes(p, r)
  }

  method BuildMap(fields: seq<FieldView>) returns (m: Fields)
    ensures m == FieldMap(fields)
  {
    m := map[];
    for i := 0 to |fields|
      invariant m == FieldMap(fields[..i])
    {
      assert fields[..i + 1][..i] == fields[..i];
      m := m[fields[i].name := fields[i]];
    }
    assert fields[..|fields|] == fields;
  }

  method CollectPersonaContext(fields: Fields, order: seq<string>, evidence: map<nat, Evidence>) returns (r: Result<map<nat, Evidence>>)
    requires forall i :: 0 <= i < |order| ==> order[i] in fields
    ensures r == Collect(evidence, fields, order)
  {
    hide Learn;
    var m := evidence;
    for i := 0 to |order|
      invariant Collect(evidence, fields, order[..i]) == Ok(m)
    {
      assert order[..i + 1][..i] == order[..i];
      var next := Learn(m, fields[order[i]]);
      if next.Err? {
        FailsOn(evidence, fields, order, i + 1);
        return next;
      }
      m := next.value;
    }
    assert order[..|order|] == order;
    return Ok(m);
  }

  lemma {:induction false} FailsOn(m: map<nat, Evidence>, fields: Fields, order: seq<string>, n: nat)
    requires n <= |order| && forall i :: 0 <= i < |order| ==> order[i] in fields
    requires Collect(m, fields, order[..n]).Err?
    ensures Collect(m, fields, order) == Collect(m, fields, order[..n])
  {
    hide Learn;
    if n == |order| {
      assert order[..n] == order;
    } else {
      var init := order[..|order| - 1];
      assert init[..n] == order[..n];
      FailsOn(m, fields, init, n);
    }
  }

  lemma {:induction false} ScanFailsOn(views: seq<View>, invocation: string, orders: seq<seq<string>>, n: nat)
    requires OrdersOk(views, orders) && n <= |views| && Scan(views[..n], invocation, orders[..n]).Err?
    ensures Scan(views, invocation, orders) == Scan(views[..n], invocation, orders[..n])
  {
    hide Read, FieldMap;
    if n == |views| {
      assert views[..n] == views && orders[..n] == orders;
    } else {
      var m := |views| - 1;
      assert views[..m][..n] == views[..n] && orders[..m][..n] == orders[..n];
      ScanFailsOn(views[..m], invocation, orders[..m], n);
    }
  }

  method Indices(evidence: map<nat, Evidence>) returns (indices: seq<nat>)
    ensures Ascends(indices) && forall i :: i in evidence <==> i in indices
  {
    var listed: seq<nat> := [];
    var rest := evidence.Keys;
    while rest != {}
      invariant forall i :: i in evidence <==> i in rest || i in listed
      invariant forall i :: i in rest ==> i !in listed
      invariant Distinct(listed)
    {
      var i :| i in rest;
      listed := listed + [i];
      rest := rest - {i};
    }
    indices := Sort<nat>(NatLe, listed);
    SortAscends(listed);
  }

  method ResolvePersonaTrace(views: seq<View>, invocation: string, orders: seq<seq<string>>) returns (r: Result<Trace>)
    requires OrdersOk(views, orders)
    ensures Resolves(views, invocation, orders, r)
  {
    hide Mentions, ApplyIdentity, Collect, Complete, FieldMap;
    if Blank(invocation) { return Err(InvalidEntry); }
    var p := Begin(invocation);
    for n := 0 to |views|
      invariant Scan(views[..n], invocation, orders[..n]) == Ok(p)
      invariant p.trace.invocation == invocation
    {
      assert views[..n + 1][..n] == views[..n] && orders[..n + 1][..n] == orders[..n];
      assert Listing(orders[n], FieldMap(views[n].fields).Keys);
      var fields := BuildMap(views[n].fields);
      if Mentions(fields, invocation) {
        var t := ApplyIdentity(fields, p.trace);
        if t.Err? {
          ScanFailsOn(views, invocation, orders, n + 1);
          return Err(t.error);
        }
        ApplyKeeps(fields, p.trace);
        var events := if views[n].entry.eventId in p.trace.events then p.trace.events else p.trace.events + [views[n].entry.eventId];
        var m := CollectPersonaContext(fields, orders[n], p.evidence);
        if m.Err? {
          ScanFailsOn(views, invocation, orders, n + 1);
          return Err(m.error);
        }
        p := Progress(t.value.(events := events), m.value, true);
      }
    }
    assert views[..|views|] == views && orders[..|orders|] == orders;
    if !p.found { return Err(InvalidEntry); }
    var indices := Indices(p.evidence);
    var context: seq<Evidence> := [];
    for j := 0 to |indices|
      invariant |context| == j
      invariant forall i :: 0 <= i < j ==> indices[i] in p.evidence && context[i] == p.evidence[indices[i]] && Complete(context[i])
    {
      assert indices[j] in p.evidence;
      var item := p.evidence[indices[j]];
      if !Complete(item) { return Err(ChainTampered); }
      context := context + [item];
    }
    assert Assembled(p.evidence, context, indices);
    return Ok(p.trace.(events := Sort(LexLe, p.trace.events), context := context));
  }

  lemma ApplyKeeps(fields: Fields, t: Trace)
    ensures var r := ApplyIdentity(fields, t); r.Ok? ==> r.value.invocation == t.invocation && r.value.events == t.events && r.value.context == t.context
  {
  }
}
