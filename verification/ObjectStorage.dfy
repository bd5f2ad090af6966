/**
 The object storage settings as a small compiler: a plan becomes an ordered list of column
 assignments, the list becomes a psql script and the environment of the Job that runs it.
 */
module ObjectStorage {
  import opened Wrappers
  import opened Text
  import opened Psql

  datatype Selector = Selector(name: string, key: string)

  /** The settings whose columns upstream defines. */
  datatype Logical =
    | UseObjectStorage | Bucket | Endpoint | Region | Prefix | BaseUrl | Port
    | AccessKey | SecretKey | UseSSL | UseProxy | SetPublicRead | ForcePathStyle

  const ORDER: seq<Logical> := [
    UseObjectStorage, Bucket, Endpoint, Region, Prefix, BaseUrl, Port,
    AccessKey, SecretKey, UseSSL, UseProxy, SetPublicRead, ForcePathStyle]

  function Name(l: Logical): string {
    match l
    case UseObjectStorage => "useObjectStorage"
    case Bucket => "bucket"
    case Endpoint => "endpoint"
    case Region => "region"
    case Prefix => "prefix"
    case BaseUrl => "baseUrl"
    case Port => "port"
    case AccessKey => "accessKey"
    case SecretKey => "secretKey"
    case UseSSL => "useSSL"
    case UseProxy => "useProxy"
    case SetPublicRead => "setPublicRead"
    case ForcePathStyle => "s3ForcePathStyle"
  }

  function ColumnSuffix(l: Logical): string {
    match l
    case UseObjectStorage => ""
    case Bucket => "Bucket"
    case Endpoint => "Endpoint"
    case Region => "Region"
    case Prefix => "Prefix"
    case BaseUrl => "BaseUrl"
    case Port => "Port"
    case AccessKey => "AccessKey"
    case SecretKey => "SecretKey"
    case UseSSL => "UseSSL"
    case UseProxy => "UseProxy"
    case SetPublicRead => "SetPublicRead"
    case ForcePathStyle => "S3ForcePathStyle"
  }

  const OBJECT_STORAGE := "objectStorage"

  /** Upstream's name of a setting's column. */
  function DefaultColumn(l: Logical): string {
    if l == UseObjectStorage then "useObjectStorage" else OBJECT_STORAGE + ColumnSuffix(l)
  }

  datatype Plan = Plan(
    overrides: map<Logical, string>,
    bucket: string, endpoint: string, region: string, prefix: string, baseUrl: string,
    port: Option<int>,
    accessKey: Selector, secretKey: Selector,
    useSSL: bool, useProxy: bool, setPublicRead: bool, forcePathStyle: bool,
    extra: map<string, string>)

  function Column(p: Plan, l: Logical): string {
    if l in p.overrides && p.overrides[l] != "" then p.overrides[l] else DefaultColumn(l)
  }

  /** A literal goes into the script's text; a user's string or a secret travels in the environment. */
  datatype Assignment =
    | Literal(column: string, value: Value)
    | Plain(column: string, env: string, name: string, text: string)
    | Secret(column: string, env: string, name: string, sel: Selector)

  datatype Setting = Fixed(value: Value) | User(text: string) | Hidden(sel: Selector)

  function SettingOf(p: Plan, l: Logical): Setting {
    match l
    case UseObjectStorage => Fixed(Bool(true))
    case Bucket => User(p.bucket)
    case Endpoint => User(p.endpoint)
    case Region => User(p.region)
    case Prefix => User(p.prefix)
    case BaseUrl => User(p.baseUrl)
    case Port => Fixed(if p.port.Some? then Int(p.port.value) else Null)
    case AccessKey => Hidden(p.accessKey)
    case SecretKey => Hidden(p.secretKey)
    case UseSSL => Fixed(Bool(p.useSSL))
    case UseProxy => Fixed(Bool(p.useProxy))
    case SetPublicRead => Fixed(Bool(p.setPublicRead))
    case ForcePathStyle => Fixed(Bool(p.forcePathStyle))
  }

  const OBJVAL := "OBJVAL_"
  const V := "v_"
  const OBJEXTRA := "OBJEXTRA_"
  const X := "x_"

  function StandardAssignment(p: Plan, l: Logical): Assignment {
    match SettingOf(p, l)
    case Fixed(v) => Literal(Column(p, l), v)
    case User("") => Literal(Column(p, l), Null)
    case User(t) => Plain(Column(p, l), OBJVAL + Name(l), V + Name(l), t)
    case Hidden(sel) => Secret(Column(p, l), OBJVAL + Name(l), V + Name(l), sel)
  }

  function ExtraAssignment(key: string, i: nat, text: string): Assignment {
    Plain(key, OBJEXTRA + NatText(i), X + NatText(i), text)
  }

  function Standard(p: Plan): seq<Assignment> {
    seq(|ORDER|, i requires 0 <= i < |ORDER| => StandardAssignment(p, ORDER[i]))
  }

  ghost function Listing(s: set<string>): seq<string> {
    if s == {} then [] else var x :| x in s; [x] + Listing(s - {x})
  }

  lemma {:induction false} ListingHolds(s: set<string>)
    ensures multiset(Listing(s)) == multiset(s)
  {
    if s != {} {
      var x :| x in s && Listing(s) == [x] + Listing(s - {x});
      ListingHolds(s - {x});
      assert multiset(s) == multiset{x} + multiset(s - {x});
    }
  }

  ghost function Keys(p: Plan): seq<string> {
    Sort(Listing(p.extra.Keys))
  }

  lemma KeysHold(p: Plan)
    ensures multiset(Keys(p)) == multiset(p.extra.Keys)
    ensures forall i | 0 <= i < |Keys(p)| :: Keys(p)[i] in p.extra
    ensures forall k | k in p.extra :: k in Keys(p)
    ensures Distinct(Keys(p))
  {
    ListingHolds(p.extra.Keys);
    SortSorts(Listing(p.extra.Keys));
    var keys := Keys(p);
    forall i | 0 <= i < |keys| ensures keys[i] in p.extra {
      assert keys[i] in multiset(keys);
    }
    forall k | k in p.extra ensures k in keys {
      assert k in multiset(keys);
    }
    forall i, j | 0 <= i < j < |keys| ensures keys[i] != keys[j] {
      TwiceInMultiset(keys, i, j);
    }
  }

  lemma TwiceInMultiset(s: seq<string>, i: nat, j: nat)
    requires i < j < |s|
    ensures s[i] == s[j] ==> multiset(s)[s[i]] >= 2
  {
    assert s == s[..j] + [s[j]] + s[j + 1..];
    assert s[..j] == s[..i] + [s[i]] + s[i + 1..j];
  }

  ghost function Extras(p: Plan): seq<Assignment> {
    KeysHold(p);
    seq(|Keys(p)|, i requires 0 <= i < |Keys(p)| => ExtraAssignment(Keys(p)[i], i, p.extra[Keys(p)[i]]))
  }

  ghost function Compiled(p: Plan): seq<Assignment> {
    Standard(p) + Extras(p)
  }

  // ----- Building the list -----

  datatype Error = InvalidIdentifier(name: string) | Collision(key: string)

  ghost predicate IsStandard(p: Plan, column: string) {
    exists l :: column == Column(p, l)
  }

  /** The plans the code accepts. Two standard columns with one name are not refused. */
  ghost predicate Acceptable(p: Plan) {
    && (forall l :: SafeIdent(Column(p, l)))
    && (forall k | k in p.extra :: SafeIdent(k) && !IsStandard(p, k))
  }

  /** Every setting is in the fixed order. */
  lemma OrderComplete(l: Logical)
    ensures l in ORDER
  {
    assert ORDER[0] == UseObjectStorage && ORDER[1] == Bucket && ORDER[2] == Endpoint && ORDER[3] == Region;
    assert ORDER[4] == Prefix && ORDER[5] == BaseUrl && ORDER[6] == Port && ORDER[7] == AccessKey;
    assert ORDER[8] == SecretKey && ORDER[9] == UseSSL && ORDER[10] == UseProxy && ORDER[11] == SetPublicRead;
    assert ORDER[12] == ForcePathStyle;
  }

  method SortedKeys(p: Plan) returns (keys: seq<string>)
    ensures keys == Keys(p)
  {
    keys := [];
    var todo := p.extra.Keys;
    while todo != {}
      invariant todo <= p.extra.Keys
      invariant multiset(keys) + multiset(todo) == multiset(p.extra.Keys)
      decreases |todo|
    {
      var k :| k in todo;
      assert multiset(todo) == multiset{k} + multiset(todo - {k});
      keys, todo := keys + [k], todo - {k};
    }
    ListingHolds(p.extra.Keys);
    SortSorts(keys);
    SortSorts(Listing(p.extra.Keys));
    SortedUnique(Sort(keys), Keys(p));
    keys := Sort(keys);
  }

  method StandardAssignments(p: Plan) returns (r: Result<seq<Assignment>, Error>, used: set<string>)
    ensures r.Ok? <==> forall l :: SafeIdent(Column(p, l))
    ensures r.Ok? ==> r.value == Standard(p) && forall c :: c in used <==> IsStandard(p, c)
    ensures r.Err? ==> r.error.InvalidIdentifier? && !SafeIdent(r.error.name) && IsStandard(p, r.error.name)
  {
    hide SafeIdent, Column, StandardAssignment;
    var out: seq<Assignment> := [];
    used := {};
    for i := 0 to |ORDER|
      invariant out == Standard(p)[..i]
      invariant forall j | 0 <= j < i :: SafeIdent(Column(p, ORDER[j])) && Column(p, ORDER[j]) in used
      invariant forall c | c in used :: IsStandard(p, c)
    {
      var c := Column(p, ORDER[i]);
      if !SafeIdent(c) {
        return Err(InvalidIdentifier(c)), used;
      }
      used := used + {c};
      out := out + [StandardAssignment(p, ORDER[i])];
    }
    forall l ensures SafeIdent(Column(p, l)) && Column(p, l) in used {
      OrderComplete(l);
      var j :| 0 <= j < |ORDER| && ORDER[j] == l;
    }
    return Ok(out), used;
  }

  /** The list of assignments: standard columns in a fixed order, then the extra ones sorted by key. */
  method Assignments(p: Plan) returns (r: Result<seq<Assignment>, Error>)
    ensures r.Ok? <==> Acceptable(p)
    ensures r.Ok? ==> r.value == Compiled(p)
    ensures r.Err? && r.error.InvalidIdentifier? ==>
      !SafeIdent(r.error.name) && (IsStandard(p, r.error.name) || r.error.name in p.extra)
    ensures r.Err? && r.error.Collision? ==> r.error.key in p.extra && IsStandard(p, r.error.key)
  {
    hide SafeIdent, Column, StandardAssignment, IsStandard, ExtraAssignment, Keys;
    var standard, used := StandardAssignments(p);
    if standard.Err? {
      return standard;
    }
    var out := standard.value;
    var keys := SortedKeys(p);
    KeysHold(p);
    for i := 0 to |keys|
      invariant out == Standard(p) + Extras(p)[..i]
      invariant forall c :: c in used <==> IsStandard(p, c) || c in keys[..i]
      invariant forall j | 0 <= j < i :: SafeIdent(keys[j]) && !IsStandard(p, keys[j])
    {
      var k := keys[i];
      if !SafeIdent(k) {
        return Err(InvalidIdentifier(k));
      }
      assert k !in keys[..i];
      if k in used {
        return Err(Collision(k));
      }
      assert keys[..i + 1] == keys[..i] + [k];
      used := used + {k};
      out := out + [ExtraAssignment(k, i, p.extra[k])];
    }
    return Ok(out);
  }
}
