/** The ownership map of components/InfluenceMap.tsx: the graph of the
    analysed outlet and its ownership chain, the detail panel for the
    selected entity, the style lookup by entity type and the summary text. */
module InfluenceMap {
  import opened Wrappers
  import opened JsText
  import opened Types
  import opened PropagandaGraphView

  // ------------------------------------------------------------------ styles

  datatype EntityStyle = EntityStyle(color: string, icon: string)

  const SOURCE_STYLE := EntityStyle("#C3443D", "Q")
  const PERSON_STYLE := EntityStyle("#8A8787", "P")

  const ENTITY_STYLES: map<string, EntityStyle> := map[
    "source" := SOURCE_STYLE,
    "person" := PERSON_STYLE,
    "financial" := EntityStyle("#020404", "$"),
    "ngo" := EntityStyle("#535050", "N"),
    "lobby" := EntityStyle("#222222", "L"),
    "government" := EntityStyle("#535050", "G")]

  /** The style of a node type, looked up in lower case, the person style otherwise. */
  function GetEntityStyle(ntype: string): EntityStyle {
    var key := ToLower(ntype);
    if key in ENTITY_STYLES then ENTITY_STYLES[key] else PERSON_STYLE
  }

  lemma LowerOfUpper(s: string)
    ensures ToLower(ToUpper(s)) == ToLower(s)
  {
    var a, b := ToLower(ToUpper(s)), ToLower(s);
    assert forall i :: 0 <= i < |s| ==> a[i] == b[i];
  }

  /** The lookup ignores case; the source node gets the source style and an
      `Owner` node, whose type is no key, the person style. */
  lemma EntityStyleProperties(ntype: string)
    ensures GetEntityStyle(ToUpper(ntype)) == GetEntityStyle(ntype)
    ensures ToLower(ntype) in ENTITY_STYLES ==> GetEntityStyle(ntype) == ENTITY_STYLES[ToLower(ntype)]
    ensures ToLower(ntype) !in ENTITY_STYLES ==> GetEntityStyle(ntype) == PERSON_STYLE
    ensures GetEntityStyle(SOURCE_TYPE) == SOURCE_STYLE
    ensures GetEntityStyle(OWNER_TYPE) == PERSON_STYLE
  {
    LowerOfUpper(ntype);
    SourceStyle();
    OwnerStyle();
  }

  lemma SourceStyle()
    ensures GetEntityStyle(SOURCE_TYPE) == SOURCE_STYLE
  {
    var k := ToLower(SOURCE_TYPE);
    assert k == "source" by {
      assert |k| == 6;
      assert k[0] == 's' && k[1] == 'o' && k[2] == 'u' && k[3] == 'r' && k[4] == 'c' && k[5] == 'e';
    }
  }

  lemma OwnerStyle()
    ensures GetEntityStyle(OWNER_TYPE) == PERSON_STYLE
  {
    var k := ToLower(OWNER_TYPE);
    assert k == "owner" by {
      assert |k| == 5;
      assert k[0] == 'o' && k[1] == 'w' && k[2] == 'n' && k[3] == 'e' && k[4] == 'r';
    }
    assert k !in ENTITY_STYLES;
  }

  // ------------------------------------------------------------------ the graph

  const SOURCE_ID := "source_root"
  const SOURCE_TYPE := "Source"
  const OWNER_TYPE := "Owner"
  const OWNED_BY := "OWNED_BY"
  const DEFAULT_OUTLET := "Hauptquelle"

  function EntityId(i: nat): string {
    "entity_" + NatToDecimal(i)
  }

  function SourceNode(outlet: Outlet): GraphNode {
    GraphNode(SOURCE_ID, OrElse(Some(outlet.name), DEFAULT_OUTLET), SOURCE_TYPE,
              None, None, None, None, None, NoProperties)
  }

  function OwnerNode(i: nat, conn: OwnershipEntry): GraphNode {
    GraphNode(EntityId(i), conn.entityName, OWNER_TYPE, None, None, None, None, None, RoleProperties(conn.role))
  }

  function OwnedByEdge(i: nat): GraphEdge {
    GraphEdge("link_" + NatToDecimal(i), EntityId(i), SOURCE_ID, OWNED_BY)
  }

  /** The node list, the link list and the pins of the ownership graph: the
      outlet first and pinned at the origin, then one owner per chain entry
      with one link from it to the outlet. */
  method BuildInfluenceGraph(data: Influence) returns (nodes: seq<GraphNode>, links: seq<GraphEdge>, pins: seq<Anchor>)
    ensures |nodes| == |data.ownershipChain| + 1 && |links| == |data.ownershipChain| && |pins| == |nodes|
    ensures nodes[0] == SourceNode(data.outlet) && pins[0] == Origin
    ensures forall i :: 0 <= i < |data.ownershipChain| ==>
      nodes[i + 1] == OwnerNode(i, data.ownershipChain[i]) && links[i] == OwnedByEdge(i) && pins[i + 1] == Free
  {
    var chain := data.ownershipChain;
    nodes := [SourceNode(data.outlet)];
    pins := [Origin];
    links := [];
    var i := 0;
    while i < |chain|
      invariant 0 <= i <= |chain|
      invariant |nodes| == i + 1 && |links| == i && |pins| == i + 1
      invariant nodes[0] == SourceNode(data.outlet) && pins[0] == Origin
      invariant forall k :: 0 <= k < i ==> nodes[k + 1] == OwnerNode(k, chain[k])
      invariant forall k :: 0 <= k < i ==> links[k] == OwnedByEdge(k)
      invariant forall k :: 1 <= k <= i ==> pins[k] == Free
    {
      nodes := nodes + [OwnerNode(i, chain[i])];
      pins := pins + [Free];
      links := links + [OwnedByEdge(i)];
      i := i + 1;
    }
  }

  // ------------------------------------------------------------------ the detail panel

  /** The second part of an id split at underscores: the text between the first and the second `_`, or
      after the first when there is no second; absent without any `_`. */
  function SecondPart(id: string): Option<string> {
    var k := IndexOf(id, '_');
    if k == -1 then None
    else
      var rest := id[k + 1..];
      var e := IndexOf(rest, '_');
      Some(if e == -1 then rest else rest[..e])
  }

  datatype EntityInfo = EntityInfo(name: string, kind: string, relationship: string)

  /** The panel content: nothing, an entity, or the `TypeError` raised when
      the id names no chain entry. */
  datatype Active = NoEntity | Entity(info: EntityInfo) | Crash

  function EntityTypeName(t: EntityType): string {
    match t
    case OWNER => "OWNER"
    case HOLDING => "HOLDING"
    case FOUNDATION => "FOUNDATION"
    case OTHER => "OTHER"
  }

  const SOURCE_KIND := "Quelle"
  const SOURCE_RELATIONSHIP := "Hauptanalysierte Medienquelle"

  function ActiveEntity(selected: Option<string>, data: Influence): Active {
    if !Truthy(selected) then NoEntity
    else if selected.value == SOURCE_ID then
      Entity(EntityInfo(data.outlet.name, SOURCE_KIND, SOURCE_RELATIONSHIP))
    else
      var part := SecondPart(selected.value);
      var idx := if part.Some? then ParseInt(part.value) else None;
      if idx.Some? && idx.value < |data.ownershipChain| then
        var conn := data.ownershipChain[idx.value];
        Entity(EntityInfo(conn.entityName, EntityTypeName(conn.entityType), conn.role))
      else Crash
  }

  lemma SecondPartOfEntityId(i: nat)
    ensures SecondPart(EntityId(i)) == Some(NatToDecimal(i))
  {
    var id, d := EntityId(i), NatToDecimal(i);
    assert forall k :: 0 <= k < |d| ==> id[7 + k] == d[k];
    IndexOfFirst(id, 6, '_');
    assert id[7..] == d;
    assert IndexOf(d, '_') == -1 by {
      assert forall k :: 0 <= k < |d| ==> IsDigit(d[k]);
    }
  }

  /** The index written into an owner's id is parsed back out of it. */
  lemma EntityIdRoundTrip(i: nat)
    ensures var p := SecondPart(EntityId(i)); p.Some? && ParseInt(p.value) == Some(i)
  {
    SecondPartOfEntityId(i);
    ParseIntOfDecimal(i);
  }

  /** Distinct chain positions give distinct ids, and no owner id is the outlet's. */
  lemma EntityIdsDistinct(i: nat, j: nat)
    ensures EntityId(i) == EntityId(j) <==> i == j
    ensures EntityId(i) != SOURCE_ID
  {
    EntityIdRoundTrip(i);
    EntityIdRoundTrip(j);
    assert EntityId(i)[0] == 'e' != SOURCE_ID[0];
  }

  /** Selecting the outlet shows the outlet, selecting the i-th owner shows
      the i-th chain entry, and a cleared selection shows nothing. */
  lemma ActiveEntityOfGraph(data: Influence, i: nat)
    requires i < |data.ownershipChain|
    ensures ActiveEntity(None, data) == NoEntity && ActiveEntity(Some(""), data) == NoEntity
    ensures ActiveEntity(Some(SOURCE_ID), data) == Entity(EntityInfo(data.outlet.name, SOURCE_KIND, SOURCE_RELATIONSHIP))
    ensures var conn := data.ownershipChain[i];
      ActiveEntity(Some(EntityId(i)), data) == Entity(EntityInfo(conn.entityName, EntityTypeName(conn.entityType), conn.role))
  {
    EntityIdRoundTrip(i);
    EntityIdsDistinct(i, i);
  }

  /** An owner id past the end of the chain (a stale selection after the data
      changed) makes the panel throw. */
  lemma ActiveEntityPastChain(data: Influence, i: nat)
    requires i >= |data.ownershipChain|
    ensures ActiveEntity(Some(EntityId(i)), data) == Crash
  {
    EntityIdRoundTrip(i);
    EntityIdsDistinct(i, i);
  }

  // ------------------------------------------------------------------ selection

  /** A click selects the node, or clears the selection when it is that node. */
  function Toggle(selected: Option<string>, id: string): (r: Option<string>)
    ensures r == None <==> selected == Some(id)
    ensures r != None ==> r == Some(id)
  {
    if selected == Some(id) then None else Some(id)
  }

  class EntitySelection {
    var selectedEntityId: Option<string>
    var hoveredEntityId: Option<string>

    constructor ()
      ensures selectedEntityId == None && hoveredEntityId == None
    {
      selectedEntityId := None;
      hoveredEntityId := None;
    }

    method Click(id: string)
      modifies this
      ensures selectedEntityId == Toggle(old(selectedEntityId), id)
      ensures hoveredEntityId == old(hoveredEntityId)
    {
      if selectedEntityId == Some(id) {
        selectedEntityId := None;
      } else {
        selectedEntityId := Some(id);
      }
    }

    method Enter(id: string)
      modifies this
      ensures hoveredEntityId == Some(id) && selectedEntityId == old(selectedEntityId)
    {
      hoveredEntityId := Some(id);
    }

    method Leave()
      modifies this
      ensures hoveredEntityId == None && selectedEntityId == old(selectedEntityId)
    {
      hoveredEntityId := None;
    }
  }

  // ------------------------------------------------------------------ summary

  const NO_SUMMARY := "Keine spezifische Zusammenfassung der Eigentumsverhältnisse verfügbar."

  /** The first filter named EIGENTUM, if any. */
  function FindOwnership(filters: seq<FilterEntry>): (r: Option<nat>)
    ensures r.Some? ==> (r.value < |filters| && filters[r.value].name == EIGENTUM &&
      forall k :: 0 <= k < r.value ==> filters[k].name != EIGENTUM)
    ensures r.None? ==> forall k :: 0 <= k < |filters| ==> filters[k].name != EIGENTUM
  {
    if filters == [] then None
    else if filters[0].name == EIGENTUM then Some(0)
    else match FindOwnership(filters[1..])
      case None => None
      case Some(k) => Some(k + 1)
  }

  function OwnershipSummary(filters: seq<FilterEntry>): string {
    match FindOwnership(filters)
    case None => NO_SUMMARY
    case Some(k) => OrElse(Some(filters[k].summary), NO_SUMMARY)
  }

  /** The text is the summary of the first EIGENTUM filter when that summary
      is not empty, and the fixed fallback otherwise. */
  lemma OwnershipSummarySpec(filters: seq<FilterEntry>)
    ensures (exists k :: 0 <= k < |filters| && filters[k].name == EIGENTUM && filters[k].summary != "" &&
               (forall j :: 0 <= j < k ==> filters[j].name != EIGENTUM) && OwnershipSummary(filters) == filters[k].summary) ||
            (OwnershipSummary(filters) == NO_SUMMARY &&
               forall k :: (0 <= k < |filters| && filters[k].name == EIGENTUM &&
                 (forall j :: 0 <= j < k ==> filters[j].name != EIGENTUM)) ==> filters[k].summary == "")
  {
    var f := FindOwnership(filters);
    if f.Some? {
      var k := f.value;
      forall k' | 0 <= k' < |filters| && filters[k'].name == EIGENTUM && (forall j :: 0 <= j < k' ==> filters[j].name != EIGENTUM)
        ensures k' == k
      {
      }
    }
  }
}
