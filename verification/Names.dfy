/** The names of a Gateway's child objects, and how the operator, RBAC and the init container agree on them. */
module Names {
  import opened Text
  import opened Wrappers

  /** Every child object the operator creates or deletes for one Gateway. */
  datatype Ref =
    | Deployment | Service | KeySecret | TorrcConfig | NetPolicy
    | RouterAccount | RouterRole | RouterBinding
    | VanityAccount | VanityRole | VanityBinding | VanityOut | VanityJob
    | Frontend | BackendSet | BackendService | OnionbalanceConfig | FrontendTorrc | BackendTorrc
    | FrontendAccount | FrontendRole | FrontendBinding
    | BackendSecret(index: nat)
    | CrossRole(ns: string) | CrossBinding(ns: string)

  datatype Kind = KDeployment | KStatefulSet | KService | KSecret | KConfigMap | KNetworkPolicy
                | KServiceAccount | KRole | KRoleBinding | KJob

  function KindOf(r: Ref): Kind {
    match r
    case Deployment | Frontend => KDeployment
    case BackendSet => KStatefulSet
    case Service | BackendService => KService
    case KeySecret | VanityOut | BackendSecret(_) => KSecret
    case TorrcConfig | OnionbalanceConfig | FrontendTorrc | BackendTorrc => KConfigMap
    case NetPolicy => KNetworkPolicy
    case RouterAccount | VanityAccount | FrontendAccount => KServiceAccount
    case RouterRole | VanityRole | FrontendRole | CrossRole(_) => KRole
    case RouterBinding | VanityBinding | FrontendBinding | CrossBinding(_) => KRoleBinding
    case VanityJob => KJob
  }

  function BackendKeySecretName(gw: string, idx: nat): string {
    gw + "-backend-" + Decimal(idx) + "-keys"
  }

  /** What follows the Gateway's name. */
  function Suffix(r: Ref): string {
    match r
    case Deployment | Service => ""
    case KeySecret => "-keys"
    case TorrcConfig => "-torrc"
    case NetPolicy => "-netpol"
    case RouterAccount | RouterRole | RouterBinding => "-router"
    case VanityAccount | VanityRole | VanityBinding | VanityJob => "-vanity"
    case VanityOut => "-vanity-out"
    case Frontend | FrontendAccount | FrontendRole | FrontendBinding => "-frontend"
    case BackendSet => "-backend"
    case BackendService => "-backends"
    case OnionbalanceConfig => "-onionbalance-config"
    case FrontendTorrc => "-frontend-torrc"
    case BackendTorrc => "-backend-torrc"
    case BackendSecret(i) => "-backend-" + Decimal(i) + "-keys"
    case CrossRole(_) | CrossBinding(_) => "-frontend-master-fetch"
  }

  function Namespace(gwNs: string, r: Ref): string {
    match r
    case CrossRole(ns) => ns
    case CrossBinding(ns) => ns
    case _ => gwNs
  }

  /** Within one Gateway no two children share kind, namespace and name. */
  lemma ChildNamesDistinct(gw: string, gwNs: string, a: Ref, b: Ref)
    requires KindOf(a) == KindOf(b) && Namespace(gwNs, a) == Namespace(gwNs, b)
    requires gw + Suffix(a) == gw + Suffix(b)
    ensures a == b
  {
    SameTail(gw, Suffix(a), Suffix(b));
    if a.BackendSecret? && b.BackendSecret? {
      BackendSuffixMiddle(a.index);
      BackendSuffixMiddle(b.index);
      DecimalInjective(a.index, b.index);
    } else if !a.BackendSecret? && !b.BackendSecret? {
      SuffixLengths(a);
      SuffixLengths(b);
    }
  }

  lemma SameTail(p: string, a: string, b: string)
    requires p + a == p + b
    ensures a == b
  {
    assert (p + a)[|p|..] == a && (p + b)[|p|..] == b;
  }

  lemma BackendSuffixMiddle(i: nat)
    ensures var s := Suffix(BackendSecret(i)); |s| > 14 && s[9..|s| - 5] == Decimal(i)
  {
  }

  /** Enough of each fixed suffix to tell it from the others of its kind. */
  lemma SuffixLengths(r: Ref)
    requires !r.BackendSecret?
    ensures |Suffix(r)| ==
            match r
            case Deployment | Service => 0
            case KeySecret => 5
            case TorrcConfig => 6
            case NetPolicy | RouterAccount | RouterRole | RouterBinding => 7
            case VanityAccount | VanityRole | VanityBinding | VanityJob => 7
            case VanityOut => 11
            case Frontend | FrontendAccount | FrontendRole | FrontendBinding | BackendService => 9
            case BackendSet => 8
            case OnionbalanceConfig => 20
            case FrontendTorrc => 15
            case BackendTorrc => 14
            case CrossRole(_) | CrossBinding(_) => 22
  {
  }

  // ---------------------------------------------------------------- reading the index back

  /** The index in "<gw>-backend-<N>-keys", or -1 for any other name. */
  function BackendSecretIndex(secretName: string, gw: string): int {
    var prefix := gw + "-backend-";
    var suffix := "-keys";
    if !HasPrefix(secretName, prefix) || !HasSuffix(secretName, suffix) then -1
    else
      match Atoi(TrimSuffix(TrimPrefix(secretName, prefix), suffix))
      case Err(_) => -1
      case Ok(n) => if n < 0 then -1 else n
  }

  /** Garbage collection reads back exactly the index a Secret was named with. */
  lemma IndexInvertsName(gw: string, idx: nat)
    requires idx <= MAX_INT
    ensures BackendSecretIndex(BackendKeySecretName(gw, idx), gw) == idx
  {
    var name := BackendKeySecretName(gw, idx);
    var prefix := gw + "-backend-";
    assert name[..|prefix|] == prefix;
    assert name[|prefix|..] == Decimal(idx) + "-keys";
    assert name[|name| - 5..] == "-keys";
    assert TrimSuffix(Decimal(idx) + "-keys", "-keys") == Decimal(idx);
    AtoiDecimal(idx);
  }

  /** Exactly the names "<gw>-backend-<N>-keys" have an index, and it is what N reads as. */
  lemma IndexExactly(secretName: string, gw: string, idx: nat)
    ensures BackendSecretIndex(secretName, gw) == idx <==>
            exists middle :: secretName == gw + "-backend-" + middle + "-keys" && Atoi(middle) == Ok(idx)
  {
    if BackendSecretIndex(secretName, gw) == idx {
      var rest := TrimPrefix(secretName, gw + "-backend-");
      var middle := TrimSuffix(rest, "-keys");
      TailDecides(secretName, gw + "-backend-", rest);
      assert secretName == gw + "-backend-" + middle + "-keys" && Atoi(middle) == Ok(idx);
    }
    forall middle | secretName == gw + "-backend-" + middle + "-keys" && Atoi(middle) == Ok(idx)
      ensures BackendSecretIndex(secretName, gw) == idx
    {
      var prefix := gw + "-backend-";
      assert secretName[..|prefix|] == prefix && secretName[|prefix|..] == middle + "-keys";
      assert secretName[|secretName| - 5..] == "-keys";
      assert TrimSuffix(middle + "-keys", "-keys") == middle;
    }
  }

  /** Where prefix and suffix overlap, what is left is a tail of "-keys", and that is no numeral. */
  lemma TailDecides(name: string, prefix: string, rest: string)
    requires name == prefix + rest && HasSuffix(name, "-keys") && Atoi(TrimSuffix(rest, "-keys")).Ok?
    ensures HasSuffix(rest, "-keys")
  {
    if rest != "" {
      assert rest[|rest| - 1] == name[|name| - 5..][4] == 's';
    }
    if |rest| >= 5 {
      assert rest[|rest| - 5..] == name[|name| - 5..];
    }
  }

  // ---------------------------------------------------------------- the init container

  /** Position of the last '-', or -1. */
  function LastDash(s: string): (d: int)
    ensures -1 <= d < |s|
    ensures d >= 0 ==> s[d] == '-'
    ensures forall i | d < i < |s| :: s[i] != '-'
  {
    if s == [] then -1
    else if s[|s| - 1] == '-' then |s| - 1
    else LastDash(s[..|s| - 1])
  }

  function PodOrdinal(podName: string): Result<string> {
    var dash := LastDash(podName);
    if dash < 0 || dash == |podName| - 1 then Err("POD_NAME has no trailing -N")
    else Ok(podName[dash + 1..])
  }

  /** The ordinal is what follows the last dash, if anything does. */
  lemma PodOrdinalExactly(podName: string, ordinal: string)
    ensures PodOrdinal(podName) == Ok(ordinal) <==>
            ordinal != "" && '-' !in ordinal && exists stem :: podName == stem + "-" + ordinal
  {
    var d := LastDash(podName);
    if PodOrdinal(podName) == Ok(ordinal) {
      assert podName == podName[..d] + "-" + ordinal;
    }
    if ordinal != "" && '-' !in ordinal {
      forall stem | podName == stem + "-" + ordinal
        ensures PodOrdinal(podName) == Ok(ordinal)
      {
        assert podName[|stem|] == '-' && podName[|stem| + 1..] == ordinal;
        assert forall i | |stem| < i < |podName| :: podName[i] == ordinal[i - |stem| - 1];
        assert d == |stem|;
      }
    }
  }

  /** The Secret tor-init fetches, from the prefix in the pod template and the pod's own name. */
  function InitSecretName(prefix: string, podName: string): Result<string> {
    match PodOrdinal(podName)
    case Err(e) => Err(e)
    case Ok(ord) => Ok(prefix + ord + "-keys")
  }

  function FetchPrefix(gw: string): string {
    gw + "-backend-"
  }

  /** A StatefulSet names its pods after itself and the ordinal. */
  function PodName(gw: string, ordinal: nat): string {
    gw + Suffix(BackendSet) + "-" + Decimal(ordinal)
  }

  /** The Secret names the router Role lists for "get". */
  function BackendNames(gw: string, replicas: nat): (names: seq<string>)
    ensures |names| == replicas
    ensures forall i | 0 <= i < replicas :: names[i] == BackendKeySecretName(gw, i)
  {
    seq(replicas, i requires 0 <= i => BackendKeySecretName(gw, i))
  }

  /** The listed names differ, and are exactly the canonical names whose index reads back below the count. */
  lemma RoleListsExactly(gw: string, replicas: nat, name: string)
    requires replicas <= MAX_INT
    ensures name in BackendNames(gw, replicas) <==>
            var i := BackendSecretIndex(name, gw); 0 <= i < replicas && name == BackendKeySecretName(gw, i)
    ensures forall i, j | 0 <= i < j < replicas :: BackendNames(gw, replicas)[i] != BackendNames(gw, replicas)[j]
  {
    var names := BackendNames(gw, replicas);
    forall i | 0 <= i < replicas
      ensures BackendSecretIndex(names[i], gw) == i
    {
      IndexInvertsName(gw, i);
    }
    var n := BackendSecretIndex(name, gw);
    if 0 <= n < replicas && name == BackendKeySecretName(gw, n) {
      assert names[n] == name;
    }
  }

  /** The loop that fills a Role's resourceNames; the frontend also reads a master Secret of its own namespace. */
  method RoleResourceNames(gw: string, gwNs: string, replicas: nat, master: Option<(string, string)>)
    returns (names: seq<string>)
    ensures names == BackendNames(gw, replicas) +
                     if master.Some? && (master.value.0 == "" || master.value.0 == gwNs) then [master.value.1] else []
  {
    names := [];
    for i := 0 to replicas
      invariant names == BackendNames(gw, i)
    {
      names := names + [BackendKeySecretName(gw, i)];
    }
    if master.Some? && (master.value.0 == "" || master.value.0 == gwNs) {
      names := names + [master.value.1];
    }
  }

  lemma OrdinalOfPod(gw: string, n: nat)
    ensures PodOrdinal(PodName(gw, n)) == Ok(Decimal(n))
  {
    var pod := PodName(gw, n);
    var d := |pod| - |Decimal(n)|;
    assert pod[d..] == Decimal(n) && pod[d - 1] == '-';
    assert forall i | d <= i < |pod| :: pod[i] == Decimal(n)[i - d];
    assert LastDash(pod) == d - 1;
  }

  lemma SecretNameBySuffix(gw: string, n: nat)
    ensures BackendKeySecretName(gw, n) == gw + Suffix(BackendSecret(n))
  {
    assert gw + "-backend-" + Decimal(n) + "-keys" == gw + ("-backend-" + Decimal(n) + "-keys");
  }

  /**
   * Pod <gw>-backend-N fetches exactly the Secret the operator made for index N, and the router Role
   * lets it do so exactly when N is below the replica count.
   */
  lemma NamesAgree(gw: string, n: nat, replicas: nat)
    ensures InitSecretName(FetchPrefix(gw), PodName(gw, n)) == Ok(BackendKeySecretName(gw, n))
    ensures BackendKeySecretName(gw, n) == gw + Suffix(BackendSecret(n))
    ensures BackendKeySecretName(gw, n) in BackendNames(gw, replicas) <==> n < replicas
  {
    OrdinalOfPod(gw, n);
    SecretNameBySuffix(gw, n);
    if n < replicas {
      assert BackendNames(gw, replicas)[n] == BackendKeySecretName(gw, n);
    }
    if BackendKeySecretName(gw, n) in BackendNames(gw, replicas) {
      var i :| 0 <= i < replicas && BackendNames(gw, replicas)[i] == BackendKeySecretName(gw, n);
      SecretNameBySuffix(gw, i);
      ChildNamesDistinct(gw, "", BackendSecret(i), BackendSecret(n));
    }
  }
}
