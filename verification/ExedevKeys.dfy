/** The keys the exe.dev provider's mutations go to the executor under, and what they leave of repeated ones. */
module ExedevKeys {
  import opened Protocol
  import opened Text
  import opened KeyedExecutor
  import P = ExedevCreate
  import D = ExedevDestroy

  /** What the key is the digest of, which is taken as injective. */
  function MutationKey(requestId: string, args: seq<string>): Json {
    Object(map["request_id" := String(requestId), "args" := Array(EncodeTexts(args))])
  }

  predicate HasScript(spec: P.Spec) {
    spec.setupScript.Some? && Trim(spec.setupScript.value) != ""
  }

  /** The setup script itself goes to standard input. */
  function NewArgs(spec: P.Spec): seq<string> {
    ["new", "--name", spec.name, "--cpu", Decimal(spec.cpus), "--memory", Decimal(spec.memoryGb) + "GB",
     "--disk", Decimal(spec.diskGb) + "GB", "--tag", "workenv", "--no-email", "--json"]
    + if HasScript(spec) then ["--setup-script", "/dev/stdin"] else []
  }

  function RemoveArgs(name: string): seq<string> {
    ["rm", name, "--json"]
  }

  function NewKey(requestId: string, spec: P.Spec): Json {
    MutationKey(requestId, NewArgs(spec))
  }

  /** A call under this key is a mutation of this request. */
  predicate KeyOf(key: Json, requestId: string) {
    key.At("request_id") == String(requestId)
  }

  /** A key tells the request and the whole command line. */
  lemma KeysAreDistinct(r: string, a: seq<string>, q: string, b: seq<string>)
    ensures MutationKey(r, a) == MutationKey(q, b) <==> r == q && a == b
    ensures KeyOf(MutationKey(r, a), q) <==> r == q
  {
    TextsRoundTrip(a);
    TextsRoundTrip(b);
    assert MutationKey(r, a).At("request_id") == String(r) && MutationKey(q, b).At("request_id") == String(q);
    assert MutationKey(r, a).At("args") == Array(EncodeTexts(a));
    assert MutationKey(q, b).At("args") == Array(EncodeTexts(b));
  }

  lemma DecimalIsInjective(m: nat, n: nat)
    ensures Decimal(m) == Decimal(n) <==> m == n
    ensures Decimal(m) + "GB" == Decimal(n) + "GB" <==> m == n
  {
    DecimalReadsBack(m);
    DecimalReadsBack(n);
    assert (Decimal(m) + "GB")[..|Decimal(m) + "GB"| - 2] == Decimal(m);
    assert (Decimal(n) + "GB")[..|Decimal(n) + "GB"| - 2] == Decimal(n);
  }

  /** Two `new`s have one command line exactly if they agree in all it says: neither region nor the script's text. */
  lemma SameNewIff(a: P.Spec, b: P.Spec)
    ensures NewArgs(a) == NewArgs(b) <==>
            && a.name == b.name && a.cpus == b.cpus && a.memoryGb == b.memoryGb && a.diskGb == b.diskGb
            && (HasScript(a) <==> HasScript(b))
  {
    DecimalIsInjective(a.cpus, b.cpus);
    DecimalIsInjective(a.memoryGb, b.memoryGb);
    DecimalIsInjective(a.diskGb, b.diskGb);
    if NewArgs(a) == NewArgs(b) {
      assert NewArgs(a)[2] == a.name && NewArgs(b)[2] == b.name;
      assert NewArgs(a)[4] == Decimal(a.cpus) && NewArgs(b)[4] == Decimal(b.cpus);
      assert NewArgs(a)[6] == Decimal(a.memoryGb) + "GB" && NewArgs(b)[6] == Decimal(b.memoryGb) + "GB";
      assert NewArgs(a)[8] == Decimal(a.diskGb) + "GB" && NewArgs(b)[8] == Decimal(b.diskGb) + "GB";
      assert |NewArgs(a)| == if HasScript(a) then 15 else 13;
      assert |NewArgs(b)| == if HasScript(b) then 15 else 13;
    }
  }

  /** The options of exe.dev's `new` that take a value. */
  const VALUED: set<string> := {"--name", "--cpu", "--memory", "--disk", "--tag", "--setup-script"}

  /** What `new` reads of its words: each such option with its value, any other word by itself. */
  function ReadOptions(words: seq<string>, read: map<string, string>): map<string, string>
    decreases |words|
  {
    if words == [] then read
    else if words[0] in VALUED && |words| > 1 then ReadOptions(words[2..], read[words[0] := words[1]])
    else ReadOptions(words[1..], read[words[0] := ""])
  }

  lemma OptionRead(name: string, value: string, rest: seq<string>, read: map<string, string>)
    requires name in VALUED
    ensures ReadOptions([name, value] + rest, read) == ReadOptions(rest, read[name := value])
  {
    assert ([name, value] + rest)[2..] == rest;
  }

  lemma FlagRead(name: string, rest: seq<string>, read: map<string, string>)
    requires name !in VALUED
    ensures ReadOptions([name] + rest, read) == ReadOptions(rest, read[name := ""])
  {
    assert ([name] + rest)[1..] == rest;
  }

  function Scripted(spec: P.Spec): seq<string> {
    if HasScript(spec) then ["--setup-script", "/dev/stdin"] else []
  }

  lemma FlagsAreRead(spec: P.Spec, read: map<string, string>)
    ensures var options := read["--tag" := "workenv"]["--no-email" := ""]["--json" := ""];
            ReadOptions(["--tag", "workenv"] + (["--no-email"] + (["--json"] + Scripted(spec))), read)
            == if HasScript(spec) then options["--setup-script" := "/dev/stdin"] else options
  {
    OptionRead("--tag", "workenv", ["--no-email"] + (["--json"] + Scripted(spec)), read);
    FlagRead("--no-email", ["--json"] + Scripted(spec), read["--tag" := "workenv"]);
    FlagRead("--json", Scripted(spec), read["--tag" := "workenv"]["--no-email" := ""]);
    if HasScript(spec) {
      assert ["--setup-script", "/dev/stdin"] == ["--setup-script", "/dev/stdin"] + [];
      OptionRead("--setup-script", "/dev/stdin", [], read["--tag" := "workenv"]["--no-email" := ""]["--json" := ""]);
    }
  }

  lemma NewArgsAre(spec: P.Spec)
    ensures NewArgs(spec)[0] == "new"
    ensures NewArgs(spec)[1..]
         == ["--name", spec.name]
            + (["--cpu", Decimal(spec.cpus)]
               + (["--memory", Decimal(spec.memoryGb) + "GB"]
                  + (["--disk", Decimal(spec.diskGb) + "GB"]
                     + (["--tag", "workenv"] + (["--no-email"] + (["--json"] + Scripted(spec)))))))
  {
  }

  /** The machine is asked for as it was given, and with a script exactly if that has text. */
  lemma NewIsRead(spec: P.Spec)
    ensures NewArgs(spec)[0] == "new"
    ensures var options := ReadOptions(NewArgs(spec)[1..], map[]);
            && "--name" in options && options["--name"] == spec.name
            && "--cpu" in options && options["--cpu"] == Decimal(spec.cpus)
            && "--memory" in options && options["--memory"] == Decimal(spec.memoryGb) + "GB"
            && "--disk" in options && options["--disk"] == Decimal(spec.diskGb) + "GB"
            && "--tag" in options && options["--tag"] == "workenv"
            && ("--setup-script" in options <==> spec.setupScript.Some? && HasText(spec.setupScript.value))
  {
    var flags := ["--tag", "workenv"] + (["--no-email"] + (["--json"] + Scripted(spec)));
    NewArgsAre(spec);
    var disk := ["--disk", Decimal(spec.diskGb) + "GB"] + flags;
    var memory := ["--memory", Decimal(spec.memoryGb) + "GB"] + disk;
    var cpu := ["--cpu", Decimal(spec.cpus)] + memory;
    OptionRead("--name", spec.name, cpu, map[]);
    OptionRead("--cpu", Decimal(spec.cpus), memory, map["--name" := spec.name]);
    OptionRead("--memory", Decimal(spec.memoryGb) + "GB", disk,
               map["--name" := spec.name]["--cpu" := Decimal(spec.cpus)]);
    var sized := map["--name" := spec.name]["--cpu" := Decimal(spec.cpus)]
                 ["--memory" := Decimal(spec.memoryGb) + "GB"];
    OptionRead("--disk", Decimal(spec.diskGb) + "GB", flags, sized);
    FlagsAreRead(spec, sized["--disk" := Decimal(spec.diskGb) + "GB"]);
    if spec.setupScript.Some? {
      TrimsToNothingIff(spec.setupScript.value);
    }
  }

  /** However often a request id asks for its `new`, it asks under one key, unless a setup script comes or goes. */
  lemma NewsShareKeyIff(requestId: string, steps: seq<P.Step>, t: P.State, i: nat, j: nat)
    requires P.Reaches(P.INIT, steps, t)
    requires i < |t.log| && j < |t.log| && t.log[i].New? && t.log[j].New?
    ensures NewKey(requestId, t.log[i].spec) == NewKey(requestId, t.log[j].spec) <==>
            (HasScript(t.log[i].spec) <==> HasScript(t.log[j].spec))
  {
    P.NewsAgree(steps, t, i, j);
    SameNewIff(t.log[i].spec, t.log[j].spec);
    KeysAreDistinct(requestId, NewArgs(t.log[i].spec), requestId, NewArgs(t.log[j].spec));
  }

  /** How many processes were started for mutations of this request. */
  function StartedFor(asks: seq<Ask<Json>>, requestId: string): nat {
    CountOf(Started(asks), requestId)
  }

  function CountOf(keys: seq<Json>, requestId: string): nat {
    if keys == [] then 0
    else CountOf(keys[..|keys| - 1], requestId) + if KeyOf(keys[|keys| - 1], requestId) then 1 else 0
  }

  lemma {:induction false} SomeOfRequest(keys: seq<Json>, requestId: string) returns (i: nat)
    requires CountOf(keys, requestId) > 0
    ensures i < |keys| && KeyOf(keys[i], requestId)
  {
    i := |keys| - 1;
    if !KeyOf(keys[i], requestId) {
      i := SomeOfRequest(keys[..|keys| - 1], requestId);
    }
  }

  lemma {:induction false} TwoOfRequest(keys: seq<Json>, requestId: string) returns (i: nat, j: nat)
    requires CountOf(keys, requestId) > 1
    ensures i < j < |keys| && KeyOf(keys[i], requestId) && KeyOf(keys[j], requestId)
  {
    j := |keys| - 1;
    if KeyOf(keys[j], requestId) {
      i := SomeOfRequest(keys[..j], requestId);
    } else {
      i, j := TwoOfRequest(keys[..j], requestId);
    }
  }

  lemma {:induction false} SomeCounted(keys: seq<Json>, requestId: string, i: nat)
    requires i < |keys| && KeyOf(keys[i], requestId)
    ensures CountOf(keys, requestId) > 0
    decreases |keys|
  {
    if i < |keys| - 1 {
      SomeCounted(keys[..|keys| - 1], requestId, i);
    }
  }

  /** Where a request has one key, one process is started for it if any call came through, and none otherwise. */
  lemma OneKeyStartsOnce(asks: seq<Ask<Json>>, requestId: string, key: Json)
    requires forall ask :: ask in asks && KeyOf(ask.key, requestId) ==> ask.key == key
    ensures StartedFor(asks, requestId) == if KeyOf(key, requestId) && Ask(key, true) in asks then 1 else 0
  {
    var keys := Started(asks);
    KeysStartOnce(asks);
    forall k | k in keys && KeyOf(k, requestId) ensures k == key {
      assert Ask(k, true) in asks;
    }
    if StartedFor(asks, requestId) > 1 {
      var i, j := TwoOfRequest(keys, requestId);
      assert false;
    }
    if StartedFor(asks, requestId) > 0 {
      var i := SomeOfRequest(keys, requestId);
      assert Ask(keys[i], true) in asks;
    }
    if KeyOf(key, requestId) && Ask(key, true) in asks {
      var i :| 0 <= i < |keys| && keys[i] == key;
      SomeCounted(keys, requestId, i);
    }
  }

  /** The calls the executor gets for one request, among everyone else's. */
  function OwnKeys(asks: seq<Ask<Json>>, requestId: string): seq<Json> {
    if asks == [] then []
    else
      var last := asks[|asks| - 1].key;
      OwnKeys(asks[..|asks| - 1], requestId) + if KeyOf(last, requestId) then [last] else []
  }

  lemma {:induction false} OwnKeysHold(asks: seq<Ask<Json>>, requestId: string)
    ensures forall ask :: ask in asks && KeyOf(ask.key, requestId) ==> ask.key in OwnKeys(asks, requestId)
  {
    if asks != [] {
      OwnKeysHold(asks[..|asks| - 1], requestId);
      assert asks == asks[..|asks| - 1] + [asks[|asks| - 1]];
    }
  }

  /** What a destroy asks of the executor. */
  function RemovalKeys(requestId: string, name: string, log: seq<D.RemovalEvent>): (keys: seq<Json>)
    ensures forall key :: key in keys ==> key == MutationKey(requestId, RemoveArgs(name))
  {
    if log == [] then []
    else
      RemovalKeys(requestId, name, log[..|log| - 1])
      + if log[|log| - 1].Removed? then [MutationKey(requestId, RemoveArgs(name))] else []
  }

  /** exe.dev gets at most one `rm` per destroy request, however often it is tried and whoever shares the executor. */
  lemma RemovalReachesExedevOnce(requestId: string, s: D.Removal, steps: seq<D.RemovalStep>, t: D.Removal,
                                 asks: seq<Ask<Json>>)
    requires D.Fresh(s) && D.Follows(s, steps, t)
    requires OwnKeys(asks, requestId) == RemovalKeys(requestId, t.name, t.log)
    ensures StartedFor(asks, requestId)
         == if Ask(MutationKey(requestId, RemoveArgs(s.name)), true) in asks then 1 else 0
  {
    D.RunKeepsRemovalInv(s, steps, t);
    OwnKeysHold(asks, requestId);
    KeysAreDistinct(requestId, RemoveArgs(s.name), requestId, RemoveArgs(s.name));
    OneKeyStartsOnce(asks, requestId, MutationKey(requestId, RemoveArgs(s.name)));
  }
}
