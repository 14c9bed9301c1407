/** Instance ownership, encoded as `key=value` strings in the flat tag list of an instance. */
module Tags {
  import opened Prelude

  const CLUSTER := "karpenter-cluster="
  const NODE_CLAIM := "karpenter-nodeclaim="
  const NODE_POOL := "karpenter-nodepool="
  const NODE_CLASS := "karpenter-nodeclass="

  function InstanceTags(cluster: string, claim: string, pool: string, nodeClass: string): seq<string> {
    [CLUSTER + cluster, NODE_CLAIM + claim, NODE_POOL + pool, NODE_CLASS + nodeClass]
  }

  predicate Plain(value: string) {
    forall c :: c in value ==> c !in " \t\r\n"
  }

  /** The value of the first tag carrying the prefix; a value with white space counts as none. */
  function TagValue(tags: seq<string>, prefix: string): Option<string> {
    if tags == [] then None
    else if prefix <= tags[0] then
      var value := tags[0][|prefix|..];
      if Plain(value) then Some(value) else None
    else TagValue(tags[1..], prefix)
  }

  /** The NodeClaim an instance backs, if the instance belongs to the named installation. */
  function NodeClaimName(tags: seq<string>, cluster: string): Option<string> {
    var owner := TagValue(tags, CLUSTER);
    if owner == None || owner.value == "" || owner.value != cluster then None
    else
      var name := TagValue(tags, NODE_CLAIM);
      if name == None || name.value == "" then None else name
  }

  /** A tag none of the four ownership prefixes fits. */
  predicate Foreign(tag: string) {
    !(CLUSTER <= tag) && !(NODE_CLAIM <= tag) && !(NODE_POOL <= tag) && !(NODE_CLASS <= tag)
  }

  /** The tags of one launch, in any order and with any foreign tags mixed in. */
  ghost predicate Carries(tags: seq<string>, cluster: string, claim: string, pool: string, nodeClass: string, foreign: seq<string>) {
    && multiset(tags) == multiset(InstanceTags(cluster, claim, pool, nodeClass)) + multiset(foreign)
    && forall t :: t in foreign ==> Foreign(t)
  }

  /** The first tag with the prefix decides, whatever tags with it follow. */
  lemma {:induction false} FirstCarrier(tags: seq<string>, prefix: string, k: nat)
    requires k < |tags| && prefix <= tags[k] && forall j :: 0 <= j < k ==> !(prefix <= tags[j])
    ensures var value := tags[k][|prefix|..];
            TagValue(tags, prefix) ==
            if exists c :: c in value && (c == ' ' || c == '\t' || c == '\r' || c == '\n') then None else Some(value)
  {
    if k > 0 {
      FirstCarrier(tags[1..], prefix, k - 1);
    }
  }

  lemma {:induction false} OnlyCarrier(tags: seq<string>, prefix: string, value: string)
    requires prefix + value in tags
    requires forall t :: t in tags && prefix <= t ==> t == prefix + value
    ensures TagValue(tags, prefix) == if Plain(value) then Some(value) else None
  {
    if prefix <= tags[0] {
      assert tags[0] in tags;
      assert tags[0][|prefix|..] == value;
    } else {
      assert prefix <= prefix + value;
      assert forall t :: t in tags[1..] ==> t in tags;
      OnlyCarrier(tags[1..], prefix, value);
    }
  }

  lemma {:induction false} NoCarrier(tags: seq<string>, prefix: string)
    requires forall t :: t in tags ==> !(prefix <= t)
    ensures TagValue(tags, prefix) == None
  {
    if tags != [] {
      assert tags[0] in tags;
      assert forall t :: t in tags[1..] ==> t in tags;
      NoCarrier(tags[1..], prefix);
    }
  }

  /** No tag fits two of the prefixes, whatever its value contains. */
  lemma PrefixesExclusive(tag: string)
    ensures CLUSTER <= tag ==> !(NODE_CLAIM <= tag) && !(NODE_POOL <= tag) && !(NODE_CLASS <= tag)
    ensures NODE_CLAIM <= tag ==> !(NODE_POOL <= tag) && !(NODE_CLASS <= tag)
    ensures NODE_POOL <= tag ==> !(NODE_CLASS <= tag)
  {
    assert CLUSTER[10] == 'c' && NODE_CLAIM[10] == NODE_POOL[10] == NODE_CLASS[10] == 'n';
    assert NODE_CLAIM[14] == NODE_CLASS[14] == 'c' && NODE_POOL[14] == 'p';
    assert NODE_CLAIM[17] == 'i' && NODE_CLASS[17] == 's';
  }

  lemma CarriedTag(tags: seq<string>, cluster: string, claim: string, pool: string, nodeClass: string, foreign: seq<string>, t: string)
    requires Carries(tags, cluster, claim, pool, nodeClass, foreign)
    ensures t in tags <==> t in InstanceTags(cluster, claim, pool, nodeClass) || t in foreign
  {
    assert t in tags <==> t in multiset(tags);
    assert t in foreign <==> t in multiset(foreign);
    assert t in InstanceTags(cluster, claim, pool, nodeClass) <==> t in multiset(InstanceTags(cluster, claim, pool, nodeClass));
  }

  /** Decoding the tags of a launch gives the launched claim to the launching installation and nothing to any other. */
  lemma OwnershipRoundTrip(tags: seq<string>, cluster: string, claim: string, pool: string, nodeClass: string, foreign: seq<string>, reader: string)
    requires Carries(tags, cluster, claim, pool, nodeClass, foreign)
    ensures NodeClaimName(tags, reader) ==
            if reader == cluster && cluster != "" && Plain(cluster) && claim != "" && Plain(claim) then Some(claim) else None
  {
    var own := InstanceTags(cluster, claim, pool, nodeClass);
    assert own[0] in own && own[1] in own;
    CarriedTag(tags, cluster, claim, pool, nodeClass, foreign, own[0]);
    CarriedTag(tags, cluster, claim, pool, nodeClass, foreign, own[1]);
    forall t | t in tags && (CLUSTER <= t || NODE_CLAIM <= t)
      ensures CLUSTER <= t ==> t == own[0]
      ensures NODE_CLAIM <= t ==> t == own[1]
    {
      CarriedTag(tags, cluster, claim, pool, nodeClass, foreign, t);
      PrefixesExclusive(t);
      assert NODE_POOL <= own[2] && NODE_CLASS <= own[3] && CLUSTER <= own[0] && NODE_CLAIM <= own[1];
    }
    OnlyCarrier(tags, CLUSTER, cluster);
    OnlyCarrier(tags, NODE_CLAIM, claim);
  }

  /** Tags that all are foreign belong to no installation. */
  lemma ForeignUnowned(tags: seq<string>, reader: string)
    requires forall t :: t in tags ==> Foreign(t)
    ensures NodeClaimName(tags, reader) == None
  {
    NoCarrier(tags, CLUSTER);
  }
}
