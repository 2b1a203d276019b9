/** Discovery requests, the role gate and the cache key
    (internal/fgateway/krtcollections/callbacks.go, pkg/xds/xds.go, internal/fgateway/xds/utils.go). */
module Xds {
  import opened Options
  import opened ResourceNames

  const ROLE_KEY := "role"
  const FALLBACK_NODE_CACHE_KEY := "misconfigured-node"
  const GATEWAY_API_PROXY_VALUE := "fleezesd-kube-gateway-api"

  /** A protobuf value: nil, a string, or any other kind. */
  datatype Value = NilValue | StringValue(s: string) | OtherValue

  datatype Struct = Struct(fields: Option<map<string, Value>>)

  datatype Node = Node(id: string, metadata: Option<Struct>)

  class DiscoveryRequest {
    var node: Option<Node>
    constructor (node: Option<Node>)
      ensures this.node == node
    {
      this.node := node;
    }
  }

  function FieldsOf(node: Option<Node>): map<string, Value>
  {
    if node.Some? && node.value.metadata.Some? && node.value.metadata.value.fields.Some?
    then node.value.metadata.value.fields.value
    else map[]
  }

  /** GetRoleFromRequest: every nil on the way reads as the empty string. */
  function RoleOf(node: Option<Node>): string
  {
    var fields := FieldsOf(node);
    if ROLE_KEY in fields && fields[ROLE_KEY].StringValue? then fields[ROLE_KEY].s else ""
  }

  /** nodeRoleHasher.ID */
  function CacheKey(node: Option<Node>): string
  {
    var fields := FieldsOf(node);
    if ROLE_KEY in fields && fields[ROLE_KEY] != NilValue
    then if fields[ROLE_KEY].StringValue? then fields[ROLE_KEY].s else ""
    else FALLBACK_NODE_CACHE_KEY
  }

  /** The node after its role has been rewritten. */
  function WithRole(node: Node, role: string): (r: Node)
    ensures r.id == node.id
    ensures RoleOf(Some(r)) == role && CacheKey(Some(r)) == role
    ensures FieldsOf(Some(r)) - {ROLE_KEY} == FieldsOf(Some(node)) - {ROLE_KEY}
  {
    var r := node.(metadata := Some(Struct(Some(FieldsOf(Some(node))[ROLE_KEY := StringValue(role)]))));
    assert FieldsOf(Some(r)) == FieldsOf(Some(node))[ROLE_KEY := StringValue(role)];
    r
  }

  predicate IsKubeGatewayCacheKey(key: string)
  {
    GATEWAY_API_PROXY_VALUE <= key
  }

  /** The gate admits exactly the keys that begin with this prefix. */
  lemma GateExactly(key: string)
    ensures IsKubeGatewayCacheKey(key) <==> exists rest :: key == "fleezesd-kube-gateway-api" + rest
    ensures !IsKubeGatewayCacheKey("")
  {
    var prefix := "fleezesd-kube-gateway-api";
    if IsKubeGatewayCacheKey(key) { assert key == prefix + key[|prefix|..]; }
  }

  /** What is read from a node: a string role is its role and its cache key; without a role,
      or without metadata, the role is empty and the cache key is the fallback; a role that
      is no string reads as empty both ways. */
  lemma RoleAndKey(id: string, fields: map<string, Value>, role: string)
    ensures "role" in fields && fields["role"] == StringValue(role) ==>
              var node := Some(Node(id, Some(Struct(Some(fields)))));
              RoleOf(node) == role && CacheKey(node) == role
    ensures "role" in fields && fields["role"].OtherValue? ==>
              var node := Some(Node(id, Some(Struct(Some(fields)))));
              RoleOf(node) == "" && CacheKey(node) == ""
    ensures "role" !in fields || fields["role"].NilValue? ==>
              var node := Some(Node(id, Some(Struct(Some(fields)))));
              RoleOf(node) == "" && CacheKey(node) == "misconfigured-node"
    ensures forall node | node in {None, Some(Node(id, None)), Some(Node(id, Some(Struct(None))))} ::
              RoleOf(node) == "" && CacheKey(node) == "misconfigured-node"
  {}

  /** Encoding a role that passes the gate yields a non-empty name that passes it again. */
  lemma GateSurvivesEncoding(role: string, hash: nat, namespace: string)
    requires IsKubeGatewayCacheKey(role)
    ensures IsKubeGatewayCacheKey(ResourceName(role, hash, namespace))
    ensures ResourceName(role, hash, namespace) != ""
  {
    var name := ResourceName(role, hash, namespace);
    assert role <= name;
    assert GATEWAY_API_PROXY_VALUE <= name;
  }

  // ---- node ids ----

  datatype NamespacedName = NamespacedName(name: string, namespace: string)

  function FirstDot(s: string): (i: nat)
    ensures i <= |s|
    ensures forall j | 0 <= j < i :: s[j] != '.'
    ensures i < |s| ==> s[i] == '.'
  {
    if s == [] || s[0] == '.' then 0 else 1 + FirstDot(s[1..])
  }

  /** getRef: split at the first dot; without a dot both parts are empty. */
  function GetRef(id: string): NamespacedName
  {
    var i := FirstDot(id);
    if i == |id| then NamespacedName("", "") else NamespacedName(id[..i], id[i + 1..])
  }

  /** `name.namespace` is recovered exactly for names without a dot. */
  lemma GetRefExact(id: string, nn: NamespacedName)
    ensures GetRef(id) == nn <==>
            || ('.' !in nn.name && id == nn.name + "." + nn.namespace)
            || ('.' !in id && nn == NamespacedName("", ""))
  {
    var i := FirstDot(id);
    if i < |id| {
      assert id == id[..i] + "." + id[i + 1..];
      assert '.' in id;
    }
    if '.' !in nn.name && id == nn.name + "." + nn.namespace {
      var k := |nn.name|;
      assert id[k] == '.';
      assert forall j | 0 <= j < k :: id[j] == nn.name[j];
      assert i == k;
      assert id[..k] == nn.name && id[k + 1..] == nn.namespace;
    }
  }

  /** The key under which a pod is stored. */
  function PodKey(nn: NamespacedName): string
  {
    nn.namespace + "/" + nn.name
  }
}
