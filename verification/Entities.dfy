// The five kinds of object the controller keeps in Manba, and the texts by
// which the in-memory state finds them.
module Entities {
  import opened Decimal

  datatype Option<+T> = None | Some(value: T)

  // uint64
  type Id = n: int | 0 <= n < 0x1_0000_0000_0000_0000

  datatype Kind = ServerKind | ClusterKind | BindKind | APIKind | RoutingKind

  datatype Node = Node(clusterID: Id, options: string, unrecognized: string)

  // `config` stands for the remaining fields of the protobuf message and
  // `unrecognized` for XXX_unrecognized.
  datatype Entity =
    | Server(id: Id, addr: string, config: string, unrecognized: string)
    | Cluster(id: Id, name: string, config: string, unrecognized: string)
    | Bind(clusterID: Id, serverID: Id)
    | API(id: Id, name: string, nodes: seq<Node>, config: string, unrecognized: string)
    | Routing(id: Id, name: string, clusterID: Id, apiID: Id, config: string, unrecognized: string)
  {
    function Kind(): Kind {
      match this
      case Server(_, _, _, _) => ServerKind
      case Cluster(_, _, _, _) => ClusterKind
      case Bind(_, _) => BindKind
      case API(_, _, _, _, _) => APIKind
      case Routing(_, _, _, _, _, _) => RoutingKind
    }

    // The field behind the secondary index: Addr for servers, Name for the
    // others, nothing for binds.
    function Name(): string {
      match this
      case Server(_, addr, _, _) => addr
      case Bind(_, _) => ""
      case _ => name
    }

    // The field behind the primary index: idStr, or the composite id of a bind.
    function Key(): string {
      if Bind? then BindText(clusterID, serverID) else IdText(id)
    }

    function Identifier(): (s: string)
      ensures s != ""
    {
      if Bind? then BindText(clusterID, serverID)
      else if Name() != "" then Name()
      else Format(id)
    }

    function Row(): Ref {
      Ref(Kind(), Key())
    }

    function NameRow(): Ref {
      Ref(Kind(), Name())
    }

    // Add refuses an object without an id, or a bind without both.
    predicate HasId() {
      if Bind? then clusterID != 0 && serverID != 0 else id != 0
    }

    // The identifier of a nameless object is printed unsigned and its idStr
    // signed, so from 2^63 on the two differ and the object cannot be found.
    predicate Addressable() {
      Bind? || Name() != "" || id < 0x8000_0000_0000_0000
    }
  }

  // A row of the database: a kind and the text of an index key.
  datatype Ref = Ref(kind: Kind, text: string)

  // id2Str: strconv.Itoa(int(id)), so ids from 2^63 on print as negative.
  function IdText(id: Id): string {
    if id == 0 then ""
    else if id < 0x8000_0000_0000_0000 then Format(id)
    else "-" + Format(0x1_0000_0000_0000_0000 - id)
  }

  function BindText(clusterID: Id, serverID: Id): (s: string)
    ensures s != ""
  {
    Format(clusterID) + "-" + Format(serverID)
  }

  lemma IdTextSign(id: Id)
    requires id != 0
    ensures IdText(id) != ""
    ensures IdText(id)[0] == '-' <==> id >= 0x8000_0000_0000_0000
  {
    if id < 0x8000_0000_0000_0000 {
      assert Format(id)[0] in Format(id);
    }
  }

  // The text is the id read as a signed number.
  lemma IdTextIsSigned(id: Id)
    requires id != 0
    ensures id < 0x8000_0000_0000_0000 ==> (forall c | c in IdText(id) :: IsDigit(c)) && Parse(IdText(id)) == id
    ensures id >= 0x8000_0000_0000_0000 ==>
              && IdText(id) != "" && IdText(id)[0] == '-' && (forall c | c in IdText(id)[1..] :: IsDigit(c))
              && Parse(IdText(id)[1..]) == 0x1_0000_0000_0000_0000 - id
  {
    if id < 0x8000_0000_0000_0000 {
      ParseFormat(id);
    } else {
      ParseFormat(0x1_0000_0000_0000_0000 - id);
      assert IdText(id)[1..] == Format(0x1_0000_0000_0000_0000 - id);
    }
  }

  lemma IdTextInjective(a: Id, b: Id)
    requires IdText(a) == IdText(b)
    ensures a == b
  {
    if a != 0 && b != 0 {
      IdTextSign(a);
      IdTextSign(b);
      if a < 0x8000_0000_0000_0000 {
        FormatInjective(a, b);
      } else {
        assert IdText(a)[1..] == Format(0x1_0000_0000_0000_0000 - a);
        assert IdText(b)[1..] == Format(0x1_0000_0000_0000_0000 - b);
        FormatInjective(0x1_0000_0000_0000_0000 - a, 0x1_0000_0000_0000_0000 - b);
      }
    }
  }

  // The text "cluster-server" determines both ids.
  lemma BindTextInjective(c1: Id, s1: Id, c2: Id, s2: Id)
    requires BindText(c1, s1) == BindText(c2, s2)
    ensures c1 == c2 && s1 == s2
  {
    SplitAtFirst(Format(c1), Format(s1), Format(c2), Format(s2), '-');
    FormatInjective(c1, c2);
    FormatInjective(s1, s2);
  }

  // Keying a store by kind and text is the same as keying it by kind and id.
  lemma RowDeterminesIds(x: Entity, y: Entity)
    requires x.Row() == y.Row()
    ensures x.Bind? == y.Bind?
    ensures x.Bind? ==> x == y
    ensures !x.Bind? ==> x.id == y.id
  {
    if x.Bind? {
      BindTextInjective(x.clusterID, x.serverID, y.clusterID, y.serverID);
    } else {
      IdTextInjective(x.id, y.id);
    }
  }

  lemma KeyNonEmpty(x: Entity)
    ensures x.Key() == "" <==> !x.Bind? && x.id == 0
  {
  }

  // ---- Comparison of two versions of an object -----------------------------

  function StripNode(n: Node): Node {
    n.(unrecognized := "")
  }

  function StripNodes(ns: seq<Node>): (r: seq<Node>)
    ensures |r| == |ns| && forall i | 0 <= i < |ns| :: r[i] == StripNode(ns[i])
  {
    seq(|ns|, i requires 0 <= i < |ns| => StripNode(ns[i]))
  }

  // CompareServer and CompareAPI ignore unrecognized bytes. The stripped
  // copies made by CompareCluster, CompareRouting and CompareBind are never
  // used, so those three compare everything.
  function Stripped(x: Entity): Entity {
    match x
    case Server(id, addr, config, _) => Server(id, addr, config, "")
    case API(id, name, nodes, config, _) => API(id, name, StripNodes(nodes), config, "")
    case _ => x
  }

  predicate Same(x: Entity, y: Entity) {
    Stripped(x) == Stripped(y)
  }

  // The same by fields: for servers and APIs everything but the unrecognized
  // bytes, of the message and of its nodes; for the others everything.
  predicate FieldsAgree(x: Entity, y: Entity) {
    match x
    case Server(id, addr, config, _) => y.Server? && y.id == id && y.addr == addr && y.config == config
    case API(id, name, nodes, config, _) =>
      y.API? && y.id == id && y.name == name && y.config == config && NodesAgree(nodes, y.nodes)
    case Cluster(_, _, _, _) => y == x
    case Routing(_, _, _, _, _, _) => y == x
    case Bind(_, _) => y == x
  }

  predicate NodesAgree(ns: seq<Node>, ms: seq<Node>) {
    && |ns| == |ms|
    && forall i | 0 <= i < |ns| :: ns[i].clusterID == ms[i].clusterID && ns[i].options == ms[i].options
  }

  lemma SameIffAgree(x: Entity, y: Entity)
    ensures Same(x, y) <==> FieldsAgree(x, y)
  {
    if x.API? && y.API? {
      NodesSameIff(x.nodes, y.nodes);
    }
  }

  lemma NodesSameIff(ns: seq<Node>, ms: seq<Node>)
    ensures StripNodes(ns) == StripNodes(ms) <==> NodesAgree(ns, ms)
  {
    if StripNodes(ns) == StripNodes(ms) {
      forall i | 0 <= i < |ns|
        ensures ns[i].clusterID == ms[i].clusterID && ns[i].options == ms[i].options
      {
        assert StripNodes(ns)[i] == StripNodes(ms)[i];
      }
    }
  }

  // ---- References between objects ------------------------------------------

  // The rows an object points at: the cluster and server of a bind, the
  // clusters of an API's dispatch nodes, the cluster and API of a routing.
  function Targets(x: Entity): set<Ref> {
    match x
    case Bind(c, s) => {Ref(ClusterKind, IdText(c)), Ref(ServerKind, IdText(s))}
    case API(_, _, nodes, _, _) => set i | 0 <= i < |nodes| :: Ref(ClusterKind, IdText(nodes[i].clusterID))
    case Routing(_, _, c, a, _, _) => {Ref(ClusterKind, IdText(c)), Ref(APIKind, IdText(a))}
    case _ => {}
  }

  lemma SameTargets(x: Entity, y: Entity)
    requires Same(x, y)
    ensures Targets(x) == Targets(y)
  {
  }
}
