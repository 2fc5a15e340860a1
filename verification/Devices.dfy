/** The GPU variables that dispatchJob adds to a job's environment. */
module Devices {
  import opened Types
  import opened MasterSteps

  // ---------- the list of devices ----------

  /** The fields of a text between commas. */
  function Fields(s: string): (r: seq<string>)
    ensures |r| > 0
  {
    if s == [] then [[]]
    else
      var rest := Fields(s[1..]);
      if s[0] == ',' then [[]] + rest else [[s[0]] + rest[0]] + rest[1..]
  }

  lemma {:induction false} FieldsJoin(a: string, b: string)
    ensures Fields(a + "," + b) == Fields(a) + Fields(b)
  {
    var s := a + "," + b;
    if a == [] {
      assert s[1..] == b;
    } else {
      assert s[1..] == a[1..] + "," + b;
      FieldsJoin(a[1..], b);
    }
  }

  lemma {:induction false} FieldsPlain(s: string)
    requires ',' !in s
    ensures Fields(s) == [s]
  {
    if s != [] {
      FieldsPlain(s[1..]);
      assert [s[0]] + s[1..] == s;
    }
  }

  lemma {:induction false} ItoaPlain(n: nat)
    ensures ',' !in Itoa(n)
  {
    if n >= 10 {
      ItoaPlain(n / 10);
    }
  }

  /** Read back, the list names the devices 0 to n - 1, each once and in order. */
  lemma {:induction false} DevicesListed(n: nat)
    requires n > 0
    ensures |Fields(DeviceList(n))| == n
    ensures forall i: nat | i < n :: Fields(DeviceList(n))[i] == Itoa(i)
  {
    ItoaPlain(n - 1);
    FieldsPlain(Itoa(n - 1));
    if n > 1 {
      DevicesListed(n - 1);
      FieldsJoin(DeviceList(n - 1), Itoa(n - 1));
    }
  }

  // ---------- the environment ----------

  /** The variables a vendor's runtime reads. */
  function DeviceVariables(vendor: string): set<string> {
    match vendor
    case "intel" => {"ONEAPI_DEVICE_SELECTOR", "SYCL_DEVICE_FILTER"}
    case "apple" => {"METAL_DEVICE_INDEX"}
    case "amd" => {"HIP_VISIBLE_DEVICES"}
    case _ => {"CUDA_VISIBLE_DEVICES"}
  }

  /** What the user set stays as it is; a job without GPUs gets nothing new; one with
      GPUs gets exactly its vendor's variables. */
  lemma UserWins(env: map<string, string>, gpus: int, vendor: string)
    ensures var r := WithDevices(env, gpus, vendor);
            && (forall k | k in env :: k in r && r[k] == env[k])
            && r.Keys == env.Keys + (if gpus > 0 then DeviceVariables(vendor) else {})
  {
  }

  lemma {:induction false} VendorFound(members: seq<Member>, x: Member)
    requires x in members && x.hasMeta && forall i, j | 0 <= i < j < |members| :: members[i].name != members[j].name
    ensures VendorOf(members, x.name) == x.vendor
  {
    if members[0] != x {
      assert x in members[1..];
      VendorFound(members[1..], x);
    }
  }

  /** What the worker of a job is sent: its node, the job, the command and the walltime
      as they are, and at least the variables that it was started with. */
  lemma OrderCarries(members: seq<Member>, spec: JobSpec, env: map<string, string>, node: string)
    ensures var p := Order(members, spec, env, node);
            && p == Execute(node, spec.id, spec.command, spec.walltime, p.env)
            && (forall k | k in env :: k in p.env && p.env[k] == env[k])
            && (spec.need.gpus <= 0 ==> p.env == env)
  {
    UserWins(env, spec.need.gpus, VendorOf(members, node));
  }

  /** The worker of a job with GPUs is told, in a variable of its own vendor that the
      user left alone, the devices 0 to gpus - 1. */
  lemma DevicesTold(members: seq<Member>, x: Member, spec: JobSpec, env: map<string, string>, name: string)
    requires x in members && x.hasMeta && forall i, j | 0 <= i < j < |members| :: members[i].name != members[j].name
    requires spec.need.gpus > 0 && name in DeviceVariables(x.vendor) && name !in env
    ensures var p := Order(members, spec, env, x.name);
            && p.node == x.name && p.jobId == spec.id && name in p.env
            && p.env[name] == (if x.vendor == "intel" then "level_zero:" else "") + DeviceList(spec.need.gpus)
  {
    VendorFound(members, x);
    assert "" + DeviceList(spec.need.gpus) == DeviceList(spec.need.gpus);
  }
}
