/** Release configurations: normalisation, and the content identity computed from the normal form. */
module Normalize {
  import opened Int64
  import Order

  // ---------------------------------------------------------------- text

  /** Unicode white space. */
  predicate IsSpace(c: char) {
    || '\t' <= c <= '\r' || c == ' ' || c == '\U{0085}' || c == '\U{00A0}' || c == '\U{1680}'
    || '\U{2000}' <= c <= '\U{200A}' || c == '\U{2028}' || c == '\U{2029}' || c == '\U{202F}' || c == '\U{205F}' || c == '\U{3000}'
  }

  function Lower(c: char): char {
    if 'A' <= c <= 'Z' then (c as int + 32) as char else c
  }

  function ToLower(s: string): (r: string)
    ensures |r| == |s| && forall i | 0 <= i < |s| :: r[i] == Lower(s[i])
  {
    seq(|s|, i requires 0 <= i < |s| => Lower(s[i]))
  }

  function Trim(s: string): string {
    if s == "" then ""
    else if IsSpace(s[0]) then Trim(s[1..])
    else if IsSpace(s[|s| - 1]) then Trim(s[..|s| - 1])
    else s
  }

  function Clean(s: string): string {
    ToLower(Trim(s))
  }

  predicate Trimmed(s: string) {
    s != "" ==> !IsSpace(s[0]) && !IsSpace(s[|s| - 1])
  }

  lemma {:induction false} TrimTrims(s: string)
    ensures Trimmed(Trim(s))
    decreases |s|
  {
    if s != "" {
      if IsSpace(s[0]) {
        TrimTrims(s[1..]);
      } else if IsSpace(s[|s| - 1]) {
        TrimTrims(s[..|s| - 1]);
      }
    }
  }

  lemma CleanIdempotent(s: string)
    ensures Clean(Clean(s)) == Clean(s) && Trim(Trim(s)) == Trim(s)
  {
    TrimTrims(s);
    var t := ToLower(Trim(s));
    assert Trim(t) == t;
    assert ToLower(t) == t;
  }

  predicate ValidLabel(s: string) {
    && 1 <= |s| <= 63 && s[0] != '-' && s[|s| - 1] != '-'
    && forall c | c in s :: 'a' <= c <= 'z' || '0' <= c <= '9' || c == '-'
  }

  // ---------------------------------------------------------------- configurations

  datatype Isolation = Sandboxed | Dedicated | Unsupported

  datatype Process = Process(
    command: seq<string>, port: int, minReplicas: int, maxReplicas: int,
    healthPath: string, startupTimeout: int, readinessTimeout: int)

  datatype Config = Config(
    region: string, unit: string, hostname: string, attachments: string, egress: string, isolation: Isolation,
    processes: map<string, Process>, migration: seq<string>, migrationTimeout: int, rolloutTimeout: int)

  predicate ValidProcess(name: string, p: Process) {
    && ValidLabel(Clean(name))
    && 0 <= p.minReplicas <= p.maxReplicas <= 1000 && !(p.maxReplicas > p.minReplicas && p.minReplicas == 0)
    && 0 <= p.port <= 65535
    && (p.healthPath != "" ==> p.healthPath[0] == '/' && forall c | c in p.healthPath :: c !in {'\r', '\n', '\0'})
  }

  function Defaults(p: Process): Process {
    p.(startupTimeout := if p.startupTimeout == 0 then 60 else p.startupTimeout,
       readinessTimeout := if p.readinessTimeout == 0 then 30 else p.readinessTimeout)
  }

  predicate Routable(processes: map<string, Process>) {
    exists k | k in processes :: processes[k].port > 0 && processes[k].minReplicas >= 1
  }

  /** Scalar fields cleaned and defaulted; processes untouched. */
  function Scalars(c: Config): Config {
    c.(region := Clean(c.region), unit := Clean(c.unit), hostname := Clean(c.hostname),
       attachments := if Trim(c.attachments) == "" then "none" else Trim(c.attachments),
       egress := if Clean(c.egress) == "" then "public-default" else Clean(c.egress),
       rolloutTimeout := if c.rolloutTimeout == 0 then 300 else c.rolloutTimeout,
       migrationTimeout := if c.migration != [] && c.migrationTimeout == 0 then 600 else c.migrationTimeout)
  }

  predicate ValidScalars(c: Config) {
    && ValidLabel(c.region) && ValidLabel(c.unit) && !c.isolation.Unsupported?
    && 1 <= |c.processes| <= 32
    && 0 < c.rolloutTimeout <= 86400 && 0 <= c.migrationTimeout <= 86400
  }

  // ---------------------------------------------------------------- the processes of the normal form

  /** Several names may clean to the same one; the last of them in byte order is kept. */
  ghost predicate IsLast(names: set<string>, k: string, n: string) {
    n in names && Clean(n) == k && forall m | m in names && Clean(m) == k :: m == n || Order.Less(m, n)
  }

  lemma {:induction false} LastExists(names: set<string>, k: string)
    requires exists n :: n in names && Clean(n) == k
    ensures exists n :: IsLast(names, k, n)
    decreases |names|
  {
    var n :| n in names && Clean(n) == k;
    var rest := names - {n};
    if m :| m in rest && Clean(m) == k {
      LastExists(rest, k);
      var l :| IsLast(rest, k, l);
      Order.Total(l, n);
      if Order.Less(l, n) {
        forall x | x in names && Clean(x) == k ensures x == n || Order.Less(x, n) {
          if x != n && x != l {
            Order.Transitive(x, l, n);
          }
        }
        assert IsLast(names, k, n);
      } else {
        assert IsLast(names, k, l);
      }
    } else {
      assert IsLast(names, k, n);
    }
  }

  lemma LastUnique(names: set<string>, k: string, a: string, b: string)
    requires IsLast(names, k, a) && IsLast(names, k, b)
    ensures a == b
  {
    if a != b {
      Order.Transitive(a, b, a);
      Order.Irreflexive(a);
    }
  }

  ghost function LastNamed(names: set<string>, k: string): (n: string)
    requires exists n :: n in names && Clean(n) == k
    ensures IsLast(names, k, n)
  {
    LastExists(names, k);
    var n :| IsLast(names, k, n);
    n
  }

  ghost function CleanProcesses(processes: map<string, Process>): map<string, Process> {
    map k | k in (set n | n in processes :: Clean(n)) :: Defaults(processes[LastNamed(processes.Keys, k)])
  }

  /** The normal form, if the configuration has one. */
  ghost function Normal(c: Config): Option<Config> {
    var d := Scalars(c);
    if ValidScalars(d) && (forall n | n in c.processes :: ValidProcess(n, c.processes[n])) && Routable(CleanProcesses(c.processes))
    then Some(d.(processes := CleanProcesses(c.processes))) else None
  }

  lemma ProcessesIdempotent(processes: map<string, Process>)
    ensures CleanProcesses(CleanProcesses(processes)) == CleanProcesses(processes)
    ensures forall k | k in CleanProcesses(processes) :: Clean(k) == k
  {
    var once := CleanProcesses(processes);
    forall k | k in once ensures Clean(k) == k {
      var n :| n in processes && k == Clean(n);
      CleanIdempotent(n);
    }
    var twice := CleanProcesses(once);
    forall k ensures k in twice <==> k in once {
      if k in once {
        assert Clean(k) in twice;
      }
    }
    forall k | k in once ensures twice[k] == once[k] {
      assert IsLast(once.Keys, k, LastNamed(once.Keys, k));
      assert LastNamed(once.Keys, k) == k;
    }
  }

  lemma {:induction false} FewerNames(processes: map<string, Process>)
    ensures |CleanProcesses(processes)| <= |processes|
    ensures processes != map[] ==> |CleanProcesses(processes)| >= 1
  {
    var once := CleanProcesses(processes);
    ImageSize(processes.Keys);
    assert once.Keys == (set n | n in processes.Keys :: Clean(n));
    if processes != map[] {
      var n :| n in processes;
      assert Clean(n) in once;
    }
  }

  lemma {:induction false} ImageSize(names: set<string>)
    ensures |set n | n in names :: Clean(n)| <= |names|
    decreases |names|
  {
    if names != {} {
      var n :| n in names;
      ImageSize(names - {n});
      assert (set x | x in names :: Clean(x)) == (set x | x in names - {n} :: Clean(x)) + {Clean(n)};
    }
  }

  lemma ScalarsIdempotent(c: Config, processes: map<string, Process>)
    ensures Scalars(Scalars(c).(processes := processes)) == Scalars(c).(processes := processes)
  {
    CleanIdempotent(c.region);
    CleanIdempotent(c.unit);
    CleanIdempotent(c.hostname);
    CleanIdempotent(c.attachments);
    CleanIdempotent(c.egress);
    ConstantsClean();
  }

  lemma ProcessesStayValid(processes: map<string, Process>)
    requires forall n | n in processes :: ValidProcess(n, processes[n])
    ensures forall k | k in CleanProcesses(processes) :: ValidProcess(k, CleanProcesses(processes)[k])
  {
    ProcessesIdempotent(processes);
    forall k | k in CleanProcesses(processes) ensures ValidProcess(k, CleanProcesses(processes)[k]) {
      var n := LastNamed(processes.Keys, k);
      assert ValidProcess(n, processes[n]) && IsLast(processes.Keys, k, n);
    }
  }

  /** Normalising again changes nothing, whatever names collided the first time. */
  lemma NormalIdempotent(c: Config)
    requires Normal(c).Some?
    ensures Normal(Normal(c).value) == Normal(c)
  {
    var d := Normal(c).value;
    ScalarsIdempotent(c, d.processes);
    ProcessesIdempotent(c.processes);
    ProcessesStayValid(c.processes);
    FewerNames(c.processes);
    assert ValidScalars(d);
  }

  lemma ConstantsClean()
    ensures Clean("public-default") == "public-default" && Trim("none") == "none"
  {
    var s := "public-default";
    assert Trim(s) == s;
    assert forall i | 0 <= i < |s| :: Lower(s[i]) == s[i];
  }

  // ---------------------------------------------------------------- content identity

  /** The identity of a release: a fingerprint of its environment, artifact and normal form. */
  datatype Identity = Identity(environment: string, artifact: string, config: Config)

  ghost function ReleaseIdentity(environment: string, artifact: string, c: Config): Option<Identity> {
    match Normal(c)
    case None => None
    case Some(d) => Some(Identity(environment, artifact, d))
  }

  /** The configuration and identity that a new release stores: it normalises before asking for the identity. */
  ghost function NewReleaseIdentity(environment: string, artifact: string, c: Config): Option<Identity> {
    match Normal(c)
    case None => None
    case Some(d) => ReleaseIdentity(environment, artifact, d)
  }

  /** What CreateRelease looks up is what NewRelease stores. */
  lemma LookupIsStored(environment: string, artifact: string, c: Config)
    ensures NewReleaseIdentity(environment, artifact, c) == ReleaseIdentity(environment, artifact, c)
  {
    if Normal(c).Some? {
      NormalIdempotent(c);
    }
  }

  /** Requests that normalise alike are the same release, whatever they spelled. */
  lemma SameNormalSameIdentity(environment: string, artifact: string, c: Config, d: Config)
    requires Normal(c).Some? && Normal(d).Some?
    ensures ReleaseIdentity(environment, artifact, c) == ReleaseIdentity(environment, artifact, d) <==> Normal(c) == Normal(d)
  {}

  // ---------------------------------------------------------------- the loop

  /** Names in byte order, taken from the map in any order. */
  method SortNames(names: set<string>) returns (sorted: seq<string>)
    ensures forall n :: n in sorted <==> n in names
    ensures forall i, j | 0 <= i < j < |sorted| :: Order.Less(sorted[i], sorted[j])
  {
    sorted := [];
    var rest := names;
    while rest != {}
      invariant rest <= names
      invariant forall n :: n in sorted <==> n in names - rest
      invariant forall i, j | 0 <= i < j < |sorted| :: Order.Less(sorted[i], sorted[j])
      decreases |rest|
    {
      var n :| n in rest;
      sorted := InsertName(n, sorted);
      rest := rest - {n};
    }
  }

  method InsertName(n: string, sorted: seq<string>) returns (out: seq<string>)
    requires n !in sorted
    requires forall i, j | 0 <= i < j < |sorted| :: Order.Less(sorted[i], sorted[j])
    ensures forall x :: x in out <==> x == n || x in sorted
    ensures forall i, j | 0 <= i < j < |out| :: Order.Less(out[i], out[j])
  {
    var p := 0;
    while p < |sorted| && Order.Less(sorted[p], n)
      invariant 0 <= p <= |sorted|
      invariant forall q | 0 <= q < p :: Order.Less(sorted[q], n)
    {
      p := p + 1;
    }
    out := sorted[..p] + [n] + sorted[p..];
    forall q | p <= q < |sorted| ensures Order.Less(n, sorted[q]) {
      Order.Total(sorted[p], n);
      if q > p {
        Order.Transitive(n, sorted[p], sorted[q]);
      }
    }
    assert sorted == sorted[..p] + sorted[p..];
  }

  /** A name after all the others takes over the slot it cleans to. */
  lemma LaterNameWins(before: map<string, Process>, n: string, p: Process)
    requires forall x | x in before :: Order.Less(x, n)
    ensures CleanProcesses(before[n := p]) == CleanProcesses(before)[Clean(n) := Defaults(p)]
  {
    hide Clean, Defaults;
    var after := before[n := p];
    assert n !in before by {
      Order.Irreflexive(n);
    }
    hide Order.Less;
    var a, b := CleanProcesses(after), CleanProcesses(before)[Clean(n) := Defaults(p)];
    assert IsLast(after.Keys, Clean(n), n);
    forall k ensures k in a <==> k in b {
      if k in CleanProcesses(before) {
        var x :| x in before && Clean(x) == k;
        assert x in after;
      }
    }
    forall k | k in a ensures a[k] == b[k] {
      if k == Clean(n) {
        LastUnique(after.Keys, k, n, LastNamed(after.Keys, k));
      } else {
        var l := LastNamed(before.Keys, k);
        assert IsLast(after.Keys, k, l);
        LastUnique(after.Keys, k, l, LastNamed(after.Keys, k));
      }
    }
  }

  function Picked(processes: map<string, Process>, names: seq<string>): map<string, Process> {
    map n | n in processes && n in names :: processes[n]
  }

  lemma NextName(processes: map<string, Process>, names: seq<string>, i: nat)
    requires i < |names| && names[i] in processes
    requires forall a, b | 0 <= a < b < |names| :: Order.Less(names[a], names[b])
    ensures Picked(processes, names[..i + 1]) == Picked(processes, names[..i])[names[i] := processes[names[i]]]
    ensures CleanProcesses(Picked(processes, names[..i + 1]))
      == CleanProcesses(Picked(processes, names[..i]))[Clean(names[i]) := Defaults(processes[names[i]])]
  {
    assert names[..i + 1] == names[..i] + [names[i]];
    forall x | x in Picked(processes, names[..i]) ensures Order.Less(x, names[i]) {
      var a :| 0 <= a < i && names[a] == x;
    }
    LaterNameWins(Picked(processes, names[..i]), names[i], processes[names[i]]);
  }

  /** Each name in order writes its cleaned slot, so the last of several colliding names is the one that stays. */
  method CollectProcesses(processes: map<string, Process>) returns (out: Option<map<string, Process>>)
    ensures out.Some? <==> forall n | n in processes :: ValidProcess(n, processes[n])
    ensures out.Some? ==> out.value == CleanProcesses(processes)
  {
    var names := SortNames(processes.Keys);
    var m: map<string, Process> := map[];
    for i := 0 to |names|
      invariant forall j | 0 <= j < i :: ValidProcess(names[j], processes[names[j]])
      invariant m == CleanProcesses(Picked(processes, names[..i]))
    {
      var n := names[i];
      assert n in names;
      if !ValidProcess(n, processes[n]) {
        return None;
      }
      NextName(processes, names, i);
      m := m[Clean(n) := Defaults(processes[n])];
    }
    AllPicked(processes, names);
    return Some(m);
  }

  lemma AllPicked(processes: map<string, Process>, names: seq<string>)
    requires forall n :: n in names <==> n in processes
    ensures Picked(processes, names[..|names|]) == processes
    ensures (forall j | 0 <= j < |names| :: ValidProcess(names[j], processes[names[j]])) ==>
      forall n | n in processes :: ValidProcess(n, processes[n])
  {
    assert names[..|names|] == names;
    forall n | n in processes ensures exists j :: 0 <= j < |names| && names[j] == n {
      assert n in names;
    }
  }

  method NormalizeReleaseConfig(input: Config) returns (out: Option<Config>)
    ensures out == Normal(input)
  {
    var d := Scalars(input);
    if !ValidScalars(d) {
      return None;
    }
    var processes := CollectProcesses(d.processes);
    if processes.None? || !Routable(processes.value) {
      return None;
    }
    return Some(d.(processes := processes.value));
  }

  // ---------------------------------------------------------------- the normal form, written out

  /** What is left of s without the white space at its ends. */
  predicate IsCore(s: string, i: nat, j: nat) {
    && i <= j <= |s|
    && (forall k | 0 <= k < i :: IsSpace(s[k])) && (forall k | j <= k < |s| :: IsSpace(s[k]))
    && (i < j ==> !IsSpace(s[i]) && !IsSpace(s[j - 1]))
  }

  lemma {:induction false} TrimsExactly(s: string, i: nat, j: nat)
    requires IsCore(s, i, j)
    ensures Trim(s) == s[i..j]
    decreases |s|
  {
    if s != "" && IsSpace(s[0]) {
      var d := if i > 0 then 1 else 0;
      TrimsExactly(s[1..], i - d, if j > 0 then j - 1 else 0);
    } else if s != "" && IsSpace(s[|s| - 1]) {
      TrimsExactly(s[..|s| - 1], i, j);
    }
  }

  /** Lower-case letters, digits and inner hyphens, at least one and at most 63. */
  predicate IsDnsLabel(s: string) {
    0 < |s| < 64 && forall i | 0 <= i < |s| ::
      ('a' <= s[i] && s[i] <= 'z') || ('0' <= s[i] && s[i] <= '9') || (s[i] == '-' && 0 < i < |s| - 1)
  }

  lemma LabelsExactly(s: string)
    ensures ValidLabel(s) <==> IsDnsLabel(s)
  {
    if IsDnsLabel(s) {
      forall c | c in s ensures 'a' <= c <= 'z' || '0' <= c <= '9' || c == '-' {
        var i :| 0 <= i < |s| && s[i] == c;
      }
      assert s[0] != '-' && s[|s| - 1] != '-';
    }
    if ValidLabel(s) {
      assert forall i | 0 <= i < |s| :: s[i] in s;
    }
  }

  predicate IsSoundProcess(name: string, p: Process) {
    && IsDnsLabel(Clean(name))
    && 0 <= p.minReplicas && p.minReplicas <= p.maxReplicas && p.maxReplicas <= 1000
    && (p.minReplicas == 0 ==> p.maxReplicas == 0)
    && 0 <= p.port <= 65535
    && (p.healthPath == "" || (p.healthPath[0] == '/' && '\r' !in p.healthPath && '\n' !in p.healthPath && '\0' !in p.healthPath))
  }

  lemma ProcessesExactly(name: string, p: Process)
    ensures ValidProcess(name, p) <==> IsSoundProcess(name, p)
  {
    hide Clean;
    LabelsExactly(Clean(name));
  }

  /** The configuration has a normal form exactly if its labels, class, sizes and timeouts are in range, every process is
      sound, and some process that no later name overrides has a port and at least one replica. */
  lemma NormalExactly(c: Config)
    ensures Normal(c).Some? <==>
      && IsDnsLabel(Clean(c.region)) && IsDnsLabel(Clean(c.unit)) && (c.isolation == Sandboxed || c.isolation == Dedicated)
      && c.processes != map[] && |c.processes| <= 32
      && 0 <= c.rolloutTimeout <= 86400 && 0 <= c.migrationTimeout <= 86400
      && (forall n | n in c.processes :: IsSoundProcess(n, c.processes[n]))
      && exists n | n in c.processes :: c.processes[n].port > 0 && c.processes[n].minReplicas >= 1 && IsLast(c.processes.Keys, Clean(n), n)
  {
    hide Clean, IsDnsLabel, ValidLabel, Order.Less;
    LabelsExactly(Clean(c.region));
    LabelsExactly(Clean(c.unit));
    forall n | n in c.processes ensures ValidProcess(n, c.processes[n]) <==> IsSoundProcess(n, c.processes[n]) {
      ProcessesExactly(n, c.processes[n]);
    }
    RoutableExactly(c.processes);
  }

  lemma RoutableExactly(processes: map<string, Process>)
    ensures Routable(CleanProcesses(processes)) <==>
      exists n | n in processes :: processes[n].port > 0 && processes[n].minReplicas >= 1 && IsLast(processes.Keys, Clean(n), n)
  {
    hide Clean, Order.Less;
    var once := CleanProcesses(processes);
    if k :| k in once && once[k].port > 0 && once[k].minReplicas >= 1 {
      var n := LastNamed(processes.Keys, k);
      assert Clean(n) == k && IsLast(processes.Keys, Clean(n), n);
    }
    if n :| n in processes && processes[n].port > 0 && processes[n].minReplicas >= 1 && IsLast(processes.Keys, Clean(n), n) {
      assert Clean(n) in once;
      LastUnique(processes.Keys, Clean(n), n, LastNamed(processes.Keys, Clean(n)));
      assert once[Clean(n)].port > 0;
    }
  }

  /** The normal form: cleaned text, every default filled in, and each cleaned name with the process of its last spelling. */
  lemma NormalFields(c: Config, n: string)
    requires Normal(c).Some?
    ensures var d := Normal(c).value;
      && d.region == Clean(c.region) && d.unit == Clean(c.unit) && d.hostname == Clean(c.hostname)
      && d.attachments == (if Trim(c.attachments) == "" then "none" else Trim(c.attachments))
      && d.egress == (if Clean(c.egress) == "" then "public-default" else Clean(c.egress))
      && d.isolation == c.isolation && d.migration == c.migration
      && d.rolloutTimeout == (if c.rolloutTimeout == 0 then 300 else c.rolloutTimeout)
      && d.migrationTimeout == (if c.migrationTimeout == 0 && c.migration != [] then 600 else c.migrationTimeout)
      && (n in c.processes ==> Clean(n) in d.processes)
      && (n in c.processes && IsLast(c.processes.Keys, Clean(n), n) ==>
            d.processes[Clean(n)] == c.processes[n].(
              startupTimeout := if c.processes[n].startupTimeout == 0 then 60 else c.processes[n].startupTimeout,
              readinessTimeout := if c.processes[n].readinessTimeout == 0 then 30 else c.processes[n].readinessTimeout))
      && (n in d.processes ==> exists m | m in c.processes :: Clean(m) == n && IsLast(c.processes.Keys, n, m))
  {
    hide Clean, Trim, Order.Less, ValidProcess, ValidScalars, Routable;
    var d := Normal(c).value;
    if n in c.processes && IsLast(c.processes.Keys, Clean(n), n) {
      LastUnique(c.processes.Keys, Clean(n), n, LastNamed(c.processes.Keys, Clean(n)));
    }
    if n in d.processes {
      var m := LastNamed(c.processes.Keys, n);
      assert m in c.processes && Clean(m) == n && IsLast(c.processes.Keys, n, m);
    }
  }

  /** Cleaning lowers the letters of what trimming leaves. */
  lemma CleansExactly(s: string, k: nat)
    ensures |Clean(s)| == |Trim(s)|
    ensures k < |Clean(s)| ==>
      Clean(s)[k] == if 'A' <= Trim(s)[k] <= 'Z' then ((Trim(s)[k] as int) - ('A' as int) + ('a' as int)) as char else Trim(s)[k]
  {}

  /** White space by code point. */
  lemma SpacesExactly(c: char)
    ensures IsSpace(c) <==>
      var n := c as int;
      9 <= n <= 13 || n == 0x20 || n == 0x85 || n == 0xA0 || n == 0x1680 || 0x2000 <= n <= 0x200A || n == 0x2028 || n == 0x2029
      || n == 0x202F || n == 0x205F || n == 0x3000
  {}
}
