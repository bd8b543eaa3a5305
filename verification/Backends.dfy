/** From backend Secrets to the onionbalance config: filtering, the in-place sort, and the renderer. */
module Backends {
  import opened Text
  import opened Wrappers
  import opened Onion
  import opened Sorting
  import Keys

  const LABEL_OWNER_UID: string := "torgateway.io/owner-uid"
  const LABEL_GATEWAY: string := "torgateway.io/gateway"
  const LABEL_ROLE: string := "torgateway.io/role"

  datatype OwnerRef = OwnerRef(uid: string, controller: Option<bool>)

  /** An entry of the informer's list; `hostname` is the Secret's data field of that name. */
  datatype Object =
    | NotASecret
    | Secret(labels: map<string, string>, owners: seq<OwnerRef>, hostname: Option<string>)

  // ---------------------------------------------------------------- filtering

  predicate ControlledBy(owners: seq<OwnerRef>, uid: string) {
    exists i | 0 <= i < |owners| :: owners[i].uid == uid && owners[i].controller == Some(true)
  }

  /** A Secret is trusted when both its label and its controller reference name the Gateway. */
  predicate Trusted(o: Object, uid: string) {
    o.Secret? && (if LABEL_OWNER_UID in o.labels then o.labels[LABEL_OWNER_UID] else "") == uid &&
    ControlledBy(o.owners, uid)
  }

  predicate IsBlank(c: char) {
    c == ' ' || c == '\n' || c == '\r' || c == '\t'
  }

  function NoSpace(s: string): string {
    if s == [] then [] else (if IsBlank(s[0]) then [] else [s[0]]) + NoSpace(s[1..])
  }

  /** What is removed: exactly the blanks, carriage returns, line ends and tabs, wherever they stand. */
  lemma {:induction false} NoSpaceSpelled(s: string, c: char, t: string)
    ensures NoSpace([]) == []
    ensures NoSpace(s + [c] + t) == NoSpace(s) + (if c in " \n\r\t" then "" else [c]) + NoSpace(t)
  {
    NoSpaceConcat(s + [c], t);
    NoSpaceConcat(s, [c]);
    assert NoSpace([c]) == if IsBlank(c) then [] else [c];
  }

  lemma NoSpaceStep(s: string, i: nat)
    requires i < |s|
    ensures NoSpace(s[..i + 1]) == NoSpace(s[..i]) + if IsBlank(s[i]) then [] else [s[i]]
  {
    NoSpaceConcat(s[..i], [s[i]]);
    assert s[..i + 1] == s[..i] + [s[i]];
  }

  lemma {:induction false} NoSpaceConcat(s: string, t: string)
    ensures NoSpace(s + t) == NoSpace(s) + NoSpace(t)
  {
    if s == [] {
      assert s + t == t;
    } else {
      assert (s + t)[0] == s[0] && (s + t)[1..] == s[1..] + t;
      NoSpaceConcat(s[1..], t);
    }
  }

  method StringNoSpace(b: string) returns (out: string)
    ensures out == NoSpace(b)
  {
    out := [];
    for i := 0 to |b|
      invariant out == NoSpace(b[..i])
    {
      NoSpaceStep(b, i);
      if b[i] != ' ' && b[i] != '\n' && b[i] != '\r' && b[i] != '\t' {
        out := out + [b[i]];
      }
    }
    assert b[..|b|] == b;
  }

  /** The address an object contributes, if any. */
  function AddressIn(sha3: Hash256, o: Object, uid: string): (r: Option<OnionAddress>)
    ensures r.Some? ==> r.value.Valid()
  {
    if !Trusted(o, uid) || o.hostname.None? || o.hostname.value == "" then None
    else
      match ParseAddress(sha3, NoSpace(o.hostname.value))
      case Err(_) => None
      case Ok(a) => Some(a)
  }

  /** What makes a Secret contribute an address: the owner label, a controller reference, and a parsing hostname. */
  lemma ContributesExactly(sha3: Hash256, o: Object, uid: string, a: OnionAddress)
    ensures AddressIn(sha3, o, uid) == Some(a) <==>
            && o.Secret?
            && (if "torgateway.io/owner-uid" in o.labels then o.labels["torgateway.io/owner-uid"] else "") == uid
            && OwnerRef(uid, Some(true)) in o.owners
            && o.hostname.Some? && o.hostname.value != "" && ParseAddress(sha3, NoSpace(o.hostname.value)) == Ok(a)
  {
    if o.Secret? && OwnerRef(uid, Some(true)) in o.owners {
      var i :| 0 <= i < |o.owners| && o.owners[i] == OwnerRef(uid, Some(true));
      assert o.owners[i].uid == uid && o.owners[i].controller == Some(true);
    }
    if o.Secret? && ControlledBy(o.owners, uid) {
      var i :| 0 <= i < |o.owners| && o.owners[i].uid == uid && o.owners[i].controller == Some(true);
      assert o.owners[i] == OwnerRef(uid, Some(true));
    }
  }

  function Contribution(sha3: Hash256, o: Object, uid: string): (r: seq<OnionAddress>)
    ensures forall i | 0 <= i < |r| :: r[i].Valid()
  {
    match AddressIn(sha3, o, uid)
    case None => []
    case Some(a) => [a]
  }

  function Pick(sha3: Hash256, uid: string): Object -> seq<OnionAddress> {
    o => Contribution(sha3, o, uid)
  }

  /** The addresses the trusted Secrets of a list carry, in list order. */
  function Selected(sha3: Hash256, objs: seq<Object>, uid: string): seq<OnionAddress> {
    Collect(Pick(sha3, uid), objs)
  }

  lemma {:induction false} SelectedValid(sha3: Hash256, objs: seq<Object>, uid: string)
    ensures AllValid(Selected(sha3, objs, uid))
  {
    if objs != [] {
      SelectedValid(sha3, objs[..|objs| - 1], uid);
    }
  }

  // ---------------------------------------------------------------- sorting

  /** The sort key: an address's text. */
  function TextKey(sha3: Hash256): OnionAddress -> string {
    a => String(sha3, a)
  }

  predicate AllValid(s: seq<OnionAddress>) {
    forall i | 0 <= i < |s| :: s[i].Valid()
  }

  lemma TextTellsApart(sha3: Hash256, s: seq<OnionAddress>)
    requires AllValid(s)
    ensures TellsApart(TextKey(sha3), s)
  {
    forall x, y | x in s && y in s && TextKey(sha3)(x) == TextKey(sha3)(y)
      ensures x == y
    {
      StringInjective(sha3, x, y);
    }
  }

  method IsControlledBy(owners: seq<OwnerRef>, uid: string) returns (owned: bool)
    ensures owned <==> ControlledBy(owners, uid)
  {
    owned := false;
    for i := 0 to |owners|
      invariant !owned && forall k | 0 <= k < i :: !(owners[k].uid == uid && owners[k].controller == Some(true))
    {
      if owners[i].uid == uid && owners[i].controller == Some(true) {
        return true;
      }
    }
  }

  /** One turn of the filtering loop. */
  method AddressFromObject(sha3: Hash256, o: Object, ownerUid: string) returns (addr: Option<OnionAddress>)
    ensures addr == AddressIn(sha3, o, ownerUid)
  {
    if !o.Secret? { return None; }
    if (if LABEL_OWNER_UID in o.labels then o.labels[LABEL_OWNER_UID] else "") != ownerUid { return None; }
    var ownedByGateway := IsControlledBy(o.owners, ownerUid);
    if !ownedByGateway { return None; }
    if o.hostname.None? || o.hostname.value == "" { return None; }
    var text := StringNoSpace(o.hostname.value);
    match ParseAddress(sha3, text)
    case Err(_) => addr := None;
    case Ok(a) => addr := Some(a);
  }

  /** The list the refresher hands to the renderer. */
  method BackendsFromSecrets(sha3: Hash256, objs: seq<Object>, ownerUid: string) returns (out: seq<OnionAddress>)
    ensures out == Sorted(TextKey(sha3), Selected(sha3, objs, ownerUid))
    ensures Ascending(TextKey(sha3), out) && multiset(out) == multiset(Selected(sha3, objs, ownerUid))
  {
    var list: seq<OnionAddress> := [];
    for n := 0 to |objs|
      invariant list == Selected(sha3, objs[..n], ownerUid)
    {
      assert objs[..n + 1][..n] == objs[..n];
      var addr := AddressFromObject(sha3, objs[n], ownerUid);
      if addr.Some? {
        list := list + [addr.value];
      }
    }
    assert objs[..|objs|] == objs;
    var a := new OnionAddress[|list|](i requires 0 <= i < |list| => list[i]);
    assert a[..] == list;
    SortInPlace(TextKey(sha3), a);
    out := a[..];
    SortedIsAscendingPermutation(TextKey(sha3), list);
  }

  // ---------------------------------------------------------------- rendering

  const BANNER: string :=
    "# generated by tor-gateway operator \U{2014} " + "do not edit by hand" + "\nservices:\n- key: "
  const NO_INSTANCES: string := "  instances: []\n"
  const INSTANCES: string := "  instances:\n"
  const ADDRESS_FIELD: string := "  - address: "
  const NAME_FIELD: string := "\n    name: backend-"
  const MASTER_FIELD: string := "# master: "

  function Texts(sha3: Hash256, backends: seq<OnionAddress>): (r: seq<string>)
    ensures |r| == |backends|
    ensures forall i | 0 <= i < |r| :: r[i] == String(sha3, backends[i])
  {
    seq(|backends|, i requires 0 <= i < |backends| => String(sha3, backends[i]))
  }

  function Entry(address: string, i: nat): string {
    ADDRESS_FIELD + address + NAME_FIELD + Decimal(i) + "\n"
  }

  /** The instance entries for backends numbered from `i`. */
  function Entries(texts: seq<string>, i: nat): string {
    if texts == [] then "" else Entry(texts[0], i) + Entries(texts[1..], i + 1)
  }

  function Instances(texts: seq<string>, master: string): string {
    if texts == [] then NO_INSTANCES
    else INSTANCES + (Entries(texts, 0) + (MASTER_FIELD + master + "\n"))
  }

  function Render(sha3: Hash256, master: OnionAddress, backends: seq<OnionAddress>, keyPath: string): Result<string> {
    if keyPath == "" then Err("keyPath is required")
    else Ok(BANNER + keyPath + "\n" + Instances(Texts(sha3, backends), String(sha3, master)))
  }

  lemma EntriesStep(texts: seq<string>, i: nat, b: string)
    requires i < |texts|
    ensures b + Entries(texts[i..], i) == b + Entry(texts[i], i) + Entries(texts[i + 1..], i + 1)
  {
    assert texts[i..][1..] == texts[i + 1..];
  }

  /** The renderer appends to a text buffer. */
  method RenderConfig(sha3: Hash256, master: OnionAddress, backends: seq<OnionAddress>, keyPath: string)
    returns (r: Result<string>)
    ensures r == Render(sha3, master, backends, keyPath)
  {
    if keyPath == "" {
      return Err("keyPath is required");
    }
    var b := BANNER + keyPath + "\n";
    ghost var head, texts := b, Texts(sha3, backends);
    if |backends| == 0 {
      return Ok(b + NO_INSTANCES);
    }
    b := b + INSTANCES;
    ghost var all := b + Entries(texts, 0);
    assert texts[0..] == texts;
    for i := 0 to |backends|
      invariant b + Entries(texts[i..], i) == all
    {
      EntriesStep(texts, i, b);
      b := b + (ADDRESS_FIELD + String(sha3, backends[i]) + NAME_FIELD + Decimal(i) + "\n");
    }
    var trailer := MASTER_FIELD + String(sha3, master) + "\n";
    assert b == all == head + INSTANCES + Entries(texts, 0);
    AppendTail(head, INSTANCES, Entries(texts, 0), trailer);
    b := b + trailer;
    r := Ok(b);
  }

  lemma AppendTail(a: string, b: string, c: string, d: string)
    ensures a + b + c + d == a + (b + (c + d))
  {
  }

  lemma TextsInjective(sha3: Hash256, s: seq<OnionAddress>, t: seq<OnionAddress>)
    requires AllValid(s) && AllValid(t) && Texts(sha3, s) == Texts(sha3, t)
    ensures s == t
  {
    assert |s| == |Texts(sha3, s)| == |t|;
    forall i | 0 <= i < |s|
      ensures s[i] == t[i]
    {
      assert Texts(sha3, s)[i] == Texts(sha3, t)[i];
      StringInjective(sha3, s[i], t[i]);
    }
  }

  // ---------------------------------------------------------------- reading the text back, line by line

  /** The lines of a text; what follows the last line end counts as one more. */
  function Lines(text: string): (r: seq<string>)
    ensures r != []
  {
    if text == "" then [""]
    else if text[0] == '\n' then [""] + Lines(text[1..])
    else
      var r := Lines(text[1..]);
      [[text[0]] + r[0]] + r[1..]
  }

  predicate OneLine(s: string) {
    forall i | 0 <= i < |s| :: s[i] != '\n'
  }

  lemma {:induction false} FirstLine(line: string, rest: string)
    requires OneLine(line)
    ensures Lines(line + "\n" + rest) == [line] + Lines(rest)
  {
    var text := line + "\n" + rest;
    if line == "" {
      assert text[1..] == rest;
    } else {
      assert text[1..] == line[1..] + "\n" + rest;
      FirstLine(line[1..], rest);
      assert [text[0]] + line[1..] == line;
      assert Lines(text)[1..] == Lines(rest);
    }
  }

  lemma TwoLines(a: string, b: string, rest: string)
    requires OneLine(a) && OneLine(b)
    ensures Lines(a + "\n" + b + "\n" + rest) == [a, b] + Lines(rest)
  {
    assert a + "\n" + b + "\n" + rest == a + "\n" + (b + "\n" + rest);
    FirstLine(a, b + "\n" + rest);
    FirstLine(b, rest);
  }

  lemma OneLineAppend(a: string, b: string)
    requires OneLine(a) && OneLine(b)
    ensures OneLine(a + b)
  {
  }

  lemma FieldsOneLine()
    ensures OneLine("  - address: ") && OneLine("    name: backend-") && OneLine("# master: ")
    ensures OneLine("  instances:") && OneLine("  instances: []") && OneLine("services:") && OneLine("- key: ")
  {
  }

  lemma EntryJoin(a: string, text: string, n: string, d: string, rest: string)
    ensures a + text + ("\n" + n) + d + "\n" + rest == (a + text) + "\n" + (n + d) + "\n" + rest
  {
  }

  lemma EntryReads(text: string, i: nat, rest: string)
    requires OneLine(text)
    ensures Lines(Entry(text, i) + rest) ==
            ["  - address: " + text, "    name: backend-" + Decimal(i)] + Lines(rest)
  {
    assert OneLine(Decimal(i));
    hide OneLine, Lines;
    FieldsOneLine();
    OneLineAppend("  - address: ", text);
    OneLineAppend("    name: backend-", Decimal(i));
    assert NAME_FIELD == "\n" + "    name: backend-";
    EntryJoin("  - address: ", text, "    name: backend-", Decimal(i), rest);
    TwoLines("  - address: " + text, "    name: backend-" + Decimal(i), rest);
  }

  /** The lines of entry `k`, and what the lines after the last entry are. */
  lemma {:induction false} EntriesRead(texts: seq<string>, i: nat, rest: string, k: nat)
    requires forall x | x in texts :: OneLine(x)
    requires k <= |texts|
    ensures var l := Lines(Entries(texts, i) + rest);
            && |l| == 2 * |texts| + |Lines(rest)|
            && (k < |texts| ==>
                  l[2 * k] == "  - address: " + texts[k] && l[2 * k + 1] == "    name: backend-" + Decimal(i + k))
            && (k == |texts| ==> l[2 * k..] == Lines(rest))
  {
    hide Entry, OneLine, Lines;
    if texts == [] {
      assert Entries(texts, i) + rest == rest;
    } else {
      var tail := Entries(texts[1..], i + 1) + rest;
      assert Entries(texts, i) + rest == Entry(texts[0], i) + tail;
      EntryReads(texts[0], i, tail);
      EntriesRead(texts[1..], i + 1, rest, if k > 0 then k - 1 else 0);
      if k > 0 {
        Onward("  - address: " + texts[0], "    name: backend-" + Decimal(i), Lines(tail), k);
      }
    }
  }

  lemma Onward(a: string, b: string, l: seq<string>, k: nat)
    requires k > 0 && 2 * k <= |l| + 2
    ensures var m := [a, b] + l;
            && m[2 * k..] == l[2 * (k - 1)..]
            && (2 * k < |l| + 2 ==> m[2 * k] == l[2 * (k - 1)])
            && (2 * k + 1 < |l| + 2 ==> m[2 * k + 1] == l[2 * (k - 1) + 1])
  {
  }

  /** An address's text holds no blank and no line end. */
  lemma TextSolid(sha3: Hash256, a: OnionAddress)
    ensures forall i | 0 <= i < |String(sha3, a)| :: !IsBlank(String(sha3, a)[i])
  {
    if a.Valid() {
      SymbolsSolid(Base32.EncodeToString(Body(sha3, a.pubKey)));
    }
  }

  lemma SymbolsSolid(e: string)
    requires Base32.AllSymbols(e)
    ensures forall i | 0 <= i < |ToLower(e) + SUFFIX| :: !IsBlank((ToLower(e) + SUFFIX)[i])
  {
    forall i | 0 <= i < |ToLower(e) + SUFFIX|
      ensures !IsBlank((ToLower(e) + SUFFIX)[i])
    {
      assert (ToLower(e) + SUFFIX)[i] == if i < |e| then LowerChar(e[i]) else SUFFIX[i - |e|];
    }
  }

  lemma BannerOneLine()
    ensures OneLine("# generated by tor-gateway operator \U{2014} " + "do not edit by hand")
  {
    BannerParts();
    hide OneLine;
    OneLineAppend("# generated by tor-gateway operator \U{2014} ", "do not edit by hand");
  }

  lemma BannerParts()
    ensures OneLine("# generated by tor-gateway operator \U{2014} ") && OneLine("do not edit by hand")
  {
  }

  lemma HeadReads(keyPath: string, body: string)
    requires OneLine(keyPath)
    ensures var l := Lines(BANNER + keyPath + "\n" + body);
            && |l| == 3 + |Lines(body)| && l[3..] == Lines(body)
            && l[0] == "# generated by tor-gateway operator \U{2014} " + "do not edit by hand"
            && l[1] == "services:" && l[2] == "- key: " + keyPath
  {
    var banner := "# generated by tor-gateway operator \U{2014} " + "do not edit by hand";
    var key := "- key: " + keyPath;
    assert BANNER == banner + "\n" + "services:" + "\n" + "- key: ";
    BannerOneLine();
    FieldsOneLine();
    OneLineAppend("- key: ", keyPath);
    assert BANNER + keyPath + "\n" + body == banner + "\n" + "services:" + "\n" + (key + "\n" + body);
    hide OneLine, Lines;
    TwoLines(banner, "services:", key + "\n" + body);
    FirstLine(key, body);
  }

  /**
   * What a reader of the config finds, line by line: the banner, the key path, then either an empty list of
   * instances, or each backend's address and number, in order, and last the master.
   */
  lemma ConfigReads(
    sha3: Hash256, master: OnionAddress, backends: seq<OnionAddress>, keyPath: string, text: string, k: nat)
    requires Render(sha3, master, backends, keyPath) == Ok(text) && OneLine(keyPath) && k < |backends|
    ensures var l, n := Lines(text), |backends|;
            && |l| == 2 * n + 6
            && l[0] == "# generated by tor-gateway operator \U{2014} " + "do not edit by hand"
            && l[1] == "services:" && l[2] == "- key: " + keyPath && l[3] == "  instances:"
            && l[2 * k + 4] == "  - address: " + String(sha3, backends[k])
            && l[2 * k + 5] == "    name: backend-" + Decimal(k)
            && l[2 * n + 4] == "# master: " + String(sha3, master) && l[2 * n + 5] == ""
  {
    hide OneLine, Lines;
    var texts, m := Texts(sha3, backends), String(sha3, master);
    HeadReads(keyPath, Instances(texts, m));
    TextsOneLine(sha3, backends);
    TextOneLine(sha3, master);
    InstancesRead(texts, m, k);
  }

  lemma TextOneLine(sha3: Hash256, a: OnionAddress)
    ensures OneLine(String(sha3, a))
  {
    TextSolid(sha3, a);
  }

  lemma TextsOneLine(sha3: Hash256, backends: seq<OnionAddress>)
    ensures forall x | x in Texts(sha3, backends) :: OneLine(x)
  {
    forall i | 0 <= i < |backends|
      ensures OneLine(Texts(sha3, backends)[i])
    {
      TextOneLine(sha3, backends[i]);
    }
  }

  lemma InstancesRead(texts: seq<string>, master: string, k: nat)
    requires OneLine(master) && (forall x | x in texts :: OneLine(x)) && k < |texts|
    ensures var l, n := Lines(Instances(texts, master)), |texts|;
            && |l| == 2 * n + 3 && l[0] == "  instances:"
            && l[2 * k + 1] == "  - address: " + texts[k] && l[2 * k + 2] == "    name: backend-" + Decimal(k)
            && l[2 * n + 1] == "# master: " + master && l[2 * n + 2] == ""
  {
    hide Entries, Lines, OneLine, Instances;
    InstancesStart(texts, master);
    EntriesRead(texts, 0, "# master: " + master + "\n", k);
    EntriesRead(texts, 0, "# master: " + master + "\n", |texts|);
    var l := Lines(Entries(texts, 0) + ("# master: " + master + "\n"));
    assert l[2 * |texts|..] == ["# master: " + master, ""];
  }

  lemma InstancesStart(texts: seq<string>, master: string)
    requires OneLine(master) && texts != []
    ensures Lines(Instances(texts, master)) ==
            ["  instances:"] + Lines(Entries(texts, 0) + ("# master: " + master + "\n"))
    ensures Lines("# master: " + master + "\n") == ["# master: " + master, ""]
  {
    hide Entries, Lines, OneLine;
    FieldsOneLine();
    OneLineAppend("# master: ", master);
    LastLine("# master: " + master);
    assert INSTANCES == "  instances:" + "\n";
    FirstLine("  instances:", Entries(texts, 0) + ("# master: " + master + "\n"));
  }

  lemma LastLine(line: string)
    requires OneLine(line)
    ensures Lines(line + "\n") == [line, ""]
  {
    FirstLine(line, "");
    assert line + "\n" + "" == line + "\n";
  }

  /** Without backends the list of instances is empty, and the master is not mentioned. */
  lemma EmptyConfigReads(sha3: Hash256, master: OnionAddress, keyPath: string)
    requires OneLine(keyPath)
    ensures keyPath == "" ==> Render(sha3, master, [], keyPath).Err?
    ensures keyPath != "" ==> (
              var r := Render(sha3, master, [], keyPath);
              && r.Ok?
              && Lines(r.value) ==
                 ["# generated by tor-gateway operator \U{2014} " + "do not edit by hand", "services:",
                  "- key: " + keyPath, "  instances: []", ""])
  {
    hide Lines;
    if keyPath != "" {
      HeadReads(keyPath, Instances([], String(sha3, master)));
      NoInstancesRead([], String(sha3, master));
      assert Texts(sha3, []) == [];
    }
  }

  lemma SameTail(p: string, a: string, b: string)
    requires p + a == p + b
    ensures a == b
  {
    assert (p + a)[|p|..] == a && (p + b)[|p|..] == b;
  }

  lemma {:induction false} InstancesTell(s: seq<string>, m: string, t: seq<string>, m': string)
    requires OneLine(m) && OneLine(m') && forall x | x in s || x in t :: OneLine(x)
    requires Instances(s, m) == Instances(t, m')
    ensures s == t && (s != [] ==> m == m')
  {
    hide OneLine, Lines, Instances;
    NoInstancesRead(s, m);
    NoInstancesRead(t, m');
    if s != [] {
      InstancesRead(s, m, 0);
      if t == [] {
        assert false;
      }
      InstancesRead(t, m', 0);
      SameTail("# master: ", m, m');
      forall k | 0 <= k < |s|
        ensures s[k] == t[k]
      {
        InstancesRead(s, m, k);
        InstancesRead(t, m', k);
        SameTail("  - address: ", s[k], t[k]);
      }
    } else if t != [] {
      InstancesRead(t, m', 0);
      assert false;
    }
  }

  lemma NoInstancesRead(s: seq<string>, m: string)
    ensures s == [] ==> Lines(Instances(s, m)) == ["  instances: []", ""]
  {
    if s == [] {
      assert Instances(s, m) == "  instances: []" + "\n";
      hide OneLine;
      FieldsOneLine();
      LastLine("  instances: []");
    }
  }

  /** A one-line key path, the backends in order, and the master they need are all read back from the text. */
  lemma RenderTells(
    sha3: Hash256, master: OnionAddress, s: seq<OnionAddress>, keyPath: string,
    master': OnionAddress, t: seq<OnionAddress>, keyPath': string)
    requires AllValid(s) && AllValid(t) && master.Valid() && master'.Valid()
    requires keyPath != "" && keyPath' != "" && OneLine(keyPath) && OneLine(keyPath')
    ensures Render(sha3, master, s, keyPath) == Render(sha3, master', t, keyPath') <==>
            keyPath == keyPath' && s == t && (s == [] || master == master')
  {
    hide OneLine, Lines;
    var x, y := Render(sha3, master, s, keyPath), Render(sha3, master', t, keyPath');
    if x == y {
      var m, m' := String(sha3, master), String(sha3, master');
      HeadReads(keyPath, Instances(Texts(sha3, s), m));
      HeadReads(keyPath', Instances(Texts(sha3, t), m'));
      SameTail("- key: ", keyPath, keyPath');
      SameTail(BANNER + keyPath + "\n", Instances(Texts(sha3, s), m), Instances(Texts(sha3, t), m'));
      TextOneLine(sha3, master);
      TextOneLine(sha3, master');
      TextsOneLine(sha3, s);
      TextsOneLine(sha3, t);
      InstancesTell(Texts(sha3, s), m, Texts(sha3, t), m');
      TextsInjective(sha3, s, t);
      if s != [] {
        StringInjective(sha3, master, master');
      }
    }
  }

  /** Two backend lists give the same text only when they are the same list, whatever the key path. */
  lemma RenderInjective(
    sha3: Hash256, master: OnionAddress, s: seq<OnionAddress>, t: seq<OnionAddress>, keyPath: string)
    requires AllValid(s) && AllValid(t) && keyPath != ""
    ensures Render(sha3, master, s, keyPath) == Render(sha3, master, t, keyPath) <==> s == t
  {
    hide OneLine, Lines;
    if Render(sha3, master, s, keyPath) == Render(sha3, master, t, keyPath) {
      var m := String(sha3, master);
      SameTail(BANNER + keyPath + "\n", Instances(Texts(sha3, s), m), Instances(Texts(sha3, t), m));
      TextOneLine(sha3, master);
      TextsOneLine(sha3, s);
      TextsOneLine(sha3, t);
      InstancesTell(Texts(sha3, s), m, Texts(sha3, t), m);
      TextsInjective(sha3, s, t);
    }
  }

  // ---------------------------------------------------------------- main results

  /** What one rebuild writes, given the informer's list. */
  function RebuildText(
    sha3: Hash256, master: OnionAddress, keyPath: string, uid: string, objs: seq<Object>): Result<string>
  {
    Render(sha3, master, Sorted(TextKey(sha3), Selected(sha3, objs, uid)), keyPath)
  }

  method RebuildConfig(sha3: Hash256, master: OnionAddress, keyPath: string, uid: string, objs: seq<Object>)
    returns (r: Result<string>)
    ensures r == RebuildText(sha3, master, keyPath, uid, objs)
  {
    var backends := BackendsFromSecrets(sha3, objs, uid);
    r := RenderConfig(sha3, master, backends, keyPath);
  }

  /** The sorted, rendered text tells exactly which addresses, with multiplicity, went in. */
  lemma TextTracksAddresses(
    sha3: Hash256, master: OnionAddress, keyPath: string, s: seq<OnionAddress>, t: seq<OnionAddress>)
    requires keyPath != "" && AllValid(s) && AllValid(t)
    ensures var p, q := Sorted(TextKey(sha3), s), Sorted(TextKey(sha3), t);
            Render(sha3, master, p, keyPath) == Render(sha3, master, q, keyPath) <==> multiset(s) == multiset(t)
  {
    var p, q := Sorted(TextKey(sha3), s), Sorted(TextKey(sha3), t);
    if multiset(s) == multiset(t) {
      TextTellsApart(sha3, s);
      SortedOfPermutation(TextKey(sha3), s, t);
    }
    if Render(sha3, master, p, keyPath) == Render(sha3, master, q, keyPath) {
      SortedValid(sha3, s);
      SortedValid(sha3, t);
      RenderInjective(sha3, master, p, q, keyPath);
      SortedIsAscendingPermutation(TextKey(sha3), s);
      SortedIsAscendingPermutation(TextKey(sha3), t);
    }
  }

  /** So a rebuild changes the file exactly when the trusted addresses change. */
  lemma ConfigTracksAddresses(
    sha3: Hash256, master: OnionAddress, keyPath: string, uid: string, objs: seq<Object>, objs': seq<Object>)
    requires keyPath != ""
    ensures RebuildText(sha3, master, keyPath, uid, objs) == RebuildText(sha3, master, keyPath, uid, objs')
       <==> multiset(Selected(sha3, objs, uid)) == multiset(Selected(sha3, objs', uid))
  {
    SelectedValid(sha3, objs, uid);
    SelectedValid(sha3, objs', uid);
    TextTracksAddresses(sha3, master, keyPath, Selected(sha3, objs, uid), Selected(sha3, objs', uid));
  }

  lemma SortedValid(sha3: Hash256, s: seq<OnionAddress>)
    requires AllValid(s)
    ensures AllValid(Sorted(TextKey(sha3), s))
  {
    SortedIsAscendingPermutation(TextKey(sha3), s);
    var r := Sorted(TextKey(sha3), s);
    forall i | 0 <= i < |r| ensures r[i].Valid() {
      assert r[i] in multiset(r);
    }
  }

  /** The informer promises no list order, and none is needed. */
  lemma ConfigIgnoresListOrder(
    sha3: Hash256, master: OnionAddress, keyPath: string, uid: string, objs: seq<Object>, objs': seq<Object>)
    requires multiset(objs) == multiset(objs')
    ensures RebuildText(sha3, master, keyPath, uid, objs) == RebuildText(sha3, master, keyPath, uid, objs')
  {
    CollectOfPermutation(Pick(sha3, uid), objs, objs');
    if keyPath != "" {
      ConfigTracksAddresses(sha3, master, keyPath, uid, objs, objs');
    }
  }

  /** The Secret the operator builds for one backend key. */
  function BuildBackendSecret(sha3: Hash256, gw: string, uid: string, k: Keys.KeyPair): Object {
    Secret(map[LABEL_GATEWAY := gw, LABEL_ROLE := "backend", LABEL_OWNER_UID := uid],
           [OwnerRef(uid, Some(true))], Some(k.Hostname(sha3)))
  }

  function BuildAll(sha3: Hash256, gw: string, uid: string, ks: seq<Keys.KeyPair>): seq<Object> {
    if ks == [] then []
    else BuildAll(sha3, gw, uid, ks[..|ks| - 1]) + [BuildBackendSecret(sha3, gw, uid, ks[|ks| - 1])]
  }

  function Addresses(ks: seq<Keys.KeyPair>): seq<OnionAddress> {
    if ks == [] then [] else Addresses(ks[..|ks| - 1]) + [ks[|ks| - 1].Address()]
  }

  lemma {:induction false} NoSpaceKeepsSolid(s: string)
    requires forall i | 0 <= i < |s| :: !IsBlank(s[i])
    ensures NoSpace(s) == s
  {
    if s != [] {
      NoSpaceKeepsSolid(s[1..]);
    }
  }

  lemma LowerSolid(e: string)
    requires |e| == 56 && Base32.AllSymbols(e)
    ensures NoSpace(ToLower(e) + SUFFIX + "\n") == ToLower(e) + SUFFIX
  {
    var s := ToLower(e) + SUFFIX;
    SymbolsSolid(e);
    NoSpaceConcat(s, "\n");
    NoSpaceKeepsSolid(s);
    assert NoSpace("\n") == "";
  }

  lemma BuiltSecretContributes(sha3: Hash256, gw: string, uid: string, k: Keys.KeyPair)
    requires k.Valid()
    ensures AddressIn(sha3, BuildBackendSecret(sha3, gw, uid, k), uid) == Some(k.Address())
  {
    var o := BuildBackendSecret(sha3, gw, uid, k);
    assert Trusted(o, uid) by {
      assert o.owners[0] == OwnerRef(uid, Some(true));
    }
    HostnameSolid(sha3, k);
    ParseOfString(sha3, k.Address(), String(sha3, k.Address()));
  }

  lemma HostnameSolid(sha3: Hash256, k: Keys.KeyPair)
    requires k.Valid()
    ensures k.Hostname(sha3) != "" && NoSpace(k.Hostname(sha3)) == String(sha3, k.Address())
  {
    LowerSolid(Base32.EncodeToString(Body(sha3, k.publicKey)));
  }

  lemma {:induction false} SelectedOfBuilt(sha3: Hash256, gw: string, uid: string, ks: seq<Keys.KeyPair>)
    requires forall i | 0 <= i < |ks| :: ks[i].Valid()
    ensures Selected(sha3, BuildAll(sha3, gw, uid, ks), uid) == Addresses(ks)
  {
    if ks != [] {
      var rest, k := ks[..|ks| - 1], ks[|ks| - 1];
      SelectedOfBuilt(sha3, gw, uid, rest);
      BuiltSecretContributes(sha3, gw, uid, k);
      CollectStep(Pick(sha3, uid), BuildAll(sha3, gw, uid, rest), BuildBackendSecret(sha3, gw, uid, k));
    }
  }

  /** A Secret whose hostname is missing, empty, or parses to no address. */
  predicate Unreadable(sha3: Hash256, o: Object) {
    o.Secret? && (o.hostname.None? || o.hostname.value == "" || ParseAddress(sha3, NoSpace(o.hostname.value)).Err?)
  }

  lemma {:induction false} UntrustedContributeNothing(sha3: Hash256, objs: seq<Object>, uid: string)
    requires forall i | 0 <= i < |objs| :: !Trusted(objs[i], uid) || Unreadable(sha3, objs[i])
    ensures Selected(sha3, objs, uid) == []
  {
    if objs != [] {
      UntrustedContributeNothing(sha3, objs[..|objs| - 1], uid);
    }
  }

  /**
   * However the operator's own Secrets are mixed with objects that lack the owner label, the controller
   * reference or a readable hostname, the config lists exactly the operator's keys, in ascending order.
   */
  lemma ConfigListsOperatorKeys(
    sha3: Hash256, master: OnionAddress, keyPath: string, gw: string, uid: string,
    ks: seq<Keys.KeyPair>, planted: seq<Object>, objs: seq<Object>)
    requires forall i | 0 <= i < |ks| :: ks[i].Valid()
    requires forall i | 0 <= i < |planted| :: !Trusted(planted[i], uid) || Unreadable(sha3, planted[i])
    ensures multiset(objs) == multiset(BuildAll(sha3, gw, uid, ks)) + multiset(planted) ==>
            RebuildText(sha3, master, keyPath, uid, objs) ==
            Render(sha3, master, Sorted(TextKey(sha3), Addresses(ks)), keyPath)
  {
    var built := BuildAll(sha3, gw, uid, ks);
    CollectConcat(Pick(sha3, uid), built, planted);
    SelectedOfBuilt(sha3, gw, uid, ks);
    UntrustedContributeNothing(sha3, planted, uid);
    assert Selected(sha3, built + planted, uid) == Addresses(ks);
    if multiset(objs) == multiset(built) + multiset(planted) {
      ConfigIgnoresListOrder(sha3, master, keyPath, uid, objs, built + planted);
    }
  }
}
