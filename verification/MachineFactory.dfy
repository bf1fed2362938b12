/**
 Building machines and cloning them. Machines and their settings are objects on the heap; settings are
 copied through JSON, whose numbers are 64-bit floats on the way back.
 */
module MachineFactory {
  import opened Images
  import opened Wrappers
  import opened Fleet

  /******* Integers through JSON *******/

  const MANTISSA: nat := 0x20_0000_0000_0000    // 2^53
  const INT_MIN: int := -0x8000_0000_0000_0000
  const INT_MAX: int := 0x7FFF_FFFF_FFFF_FFFF

  function Pow2(e: nat): (p: nat)
    ensures p > 0
  {
    if e == 0 then 1 else 2 * Pow2(e - 1)
  }

  /** The power of two a float of this magnitude is a multiple of. */
  function Exponent(a: nat): nat {
    if a < MANTISSA then 0 else 1 + Exponent(a / 2)
  }

  /** Nearest float, ties to even. */
  function Nearest(a: nat): nat {
    var p := Pow2(Exponent(a));
    var q, r := a / p, a % p;
    (q + if 2 * r > p || (2 * r == p && q % 2 == 1) then 1 else 0) * p
  }

  function Float(n: int): int {
    if n >= 0 then Nearest(n) else -(Nearest(-n) as int)
  }

  /** Conversion of a float to a 64-bit integer; out of range it is the smallest integer (amd64). */
  function ToInt64(x: int): int {
    if INT_MIN <= x <= INT_MAX then x else INT_MIN
  }

  /** An integer of 53 significant bits. */
  predicate Representable(a: nat) {
    a < MANTISSA || (a % 2 == 0 && Representable(a / 2))
  }

  lemma DivMod(a: nat, p: nat)
    requires p > 0
    ensures a == a / p * p + a % p && a % p < p
  {}

  lemma HalfMod(a: nat, p: nat)
    requires p > 0
    ensures a % (2 * p) == 0 <==> a % 2 == 0 && (a / 2) % p == 0
  {
    var b := a / 2;
    DivMod(b, p);
    DivMod(a, 2 * p);
    var q, r := b / p, b % p;
    assert a == 2 * b + a % 2;
    assert a == q * (2 * p) + (2 * r + a % 2) by { assert 2 * (q * p) == q * (2 * p); }
    UniqueMod(a, 2 * p, q, 2 * r + a % 2);
  }

  lemma UniqueMod(a: nat, p: nat, q: int, r: nat)
    requires p > 0 && a == q * p + r && r < p
    ensures a % p == r
  {
    DivMod(a, p);
    var d := a / p - q;
    assert d * p == r - a % p by { assert (a / p) * p - q * p == d * p; }
    MultipleApart(d, p);
  }

  lemma MultipleApart(d: int, p: int)
    requires p > 0
    ensures d >= 1 ==> d * p >= p
    ensures d <= -1 ==> d * p <= -p
  {}

  lemma {:induction false} RepresentableMod(a: nat)
    ensures Representable(a) <==> a % Pow2(Exponent(a)) == 0
    decreases a
  {
    if a >= MANTISSA {
      RepresentableMod(a / 2);
      HalfMod(a, Pow2(Exponent(a / 2)));
    }
  }

  /** A float holds an integer exactly if 53 bits are enough for it. */
  lemma NearestExactly(a: nat)
    ensures Nearest(a) == a <==> Representable(a)
  {
    RepresentableMod(a);
    var p := Pow2(Exponent(a));
    DivMod(a, p);
    var q, r := a / p, a % p;
    assert (q + 1) * p == q * p + p;
  }

  lemma NearestParts(a: nat) returns (q: nat, r: nat, up: nat)
    ensures var p := Pow2(Exponent(a));
            && a == q * p + r && r < p && up <= 1 && Nearest(a) == (q + up) * p
            && (up == 1 <==> 2 * r > p || (2 * r == p && q % 2 == 1))
  {
    hide Pow2, Exponent;
    var p := Pow2(Exponent(a));
    q, r := a / p, a % p;
    up := if 2 * r > p || (2 * r == p && q % 2 == 1) then 1 else 0;
    assert Nearest(a) == (q + up) * p;
    hide Nearest;
    DivMod(a, p);
  }

  /** Otherwise the nearest multiple of the power of two is taken, at a tie the even one. */
  lemma NearestIsNearest(a: nat)
    ensures var p := Pow2(Exponent(a));
            && Nearest(a) % p == 0 && 2 * Abs(Nearest(a) - a) <= p
            && (2 * Abs(Nearest(a) - a) == p ==> (Nearest(a) / p) % 2 == 0)
  {
    hide Nearest, Pow2, Exponent, Abs;
    var q, r, up := NearestParts(a);
    var p := Pow2(Exponent(a));
    Multiple(q + up, p);
    Rounded(a, p, q, r, up);
  }

  lemma Multiple(q: nat, p: nat)
    requires p > 0
    ensures q * p % p == 0 && q * p / p == q
  {
    UniqueMod(q * p, p, q, 0);
    DivMod(q * p, p);
    Cancel(q * p / p, q, p);
  }

  lemma Rounded(a: nat, p: nat, q: nat, r: nat, up: nat)
    requires p > 0 && a == q * p + r && r < p && up <= 1
    requires up == 1 <==> 2 * r > p || (2 * r == p && q % 2 == 1)
    ensures 2 * Abs((q + up) * p - a) <= p && (2 * Abs((q + up) * p - a) == p ==> (q + up) % 2 == 0)
  {
    assert (q + up) * p == q * p + up * p;
    assert up * p == if up == 1 then p else 0;
  }

  lemma Cancel(a: nat, b: nat, p: nat)
    requires p > 0 && a * p == b * p
    ensures a == b
  {
    MultipleApart(a - b, p);
    assert (a - b) * p == a * p - b * p;
  }

  function Abs(n: int): nat { if n < 0 then -n else n }

  lemma {:induction false} RepresentableBounded(a: nat)
    requires a <= MANTISSA
    ensures Representable(a)
  {
    assert Representable(MANTISSA / 2);
  }

  /** A setting survives the copy exactly if 53 bits are enough for it, so in particular up to 2^53. */
  lemma CopiedExactly(n: int)
    requires INT_MIN <= n <= INT_MAX
    ensures ToInt64(Float(n)) == n <==> Representable(Abs(n))
    ensures Abs(n) <= MANTISSA ==> ToInt64(Float(n)) == n
  {
    NearestExactly(Abs(n));
    if Abs(n) <= MANTISSA { RepresentableBounded(Abs(n)); }
    if n == INT_MIN {
      MinRepresentable();
    }
  }

  lemma MinRepresentable()
    ensures Representable(0x8000_0000_0000_0000)
  {
    assert Representable(0x10_0000_0000_0000);
    assert Representable(0x20_0000_0000_0000);
    assert Representable(0x40_0000_0000_0000);
    assert Representable(0x80_0000_0000_0000);
    assert Representable(0x100_0000_0000_0000);
    assert Representable(0x200_0000_0000_0000);
    assert Representable(0x400_0000_0000_0000);
    assert Representable(0x800_0000_0000_0000);
    assert Representable(0x1000_0000_0000_0000);
    assert Representable(0x2000_0000_0000_0000);
    assert Representable(0x4000_0000_0000_0000);
  }

  /** The first integer that does not survive. */
  lemma NotBeyond()
    ensures ToInt64(Float(MANTISSA + 1)) != MANTISSA + 1
  {
    CopiedExactly(MANTISSA + 1);
    assert (MANTISSA + 1) % 2 == 1;
  }

  /******* Objects *******/

  const STORAGE := "es_local_storage_capacity"
  const DISK := "disk_size"

  type Fields = map<string, int>

  /** Settings are the provider's own struct (`typed`) or a generic map of floats. */
  class Settings {
    const typed: bool
    var fields: Fields

    constructor (typed: bool, fields: Fields)
      ensures this.typed == typed && this.fields == fields
    {
      this.typed, this.fields := typed, fields;
    }
  }

  class Machine {
    var nodeType: NodeType
    var size: string
    var image: Image
    var settings: Settings?

    constructor (nodeType: NodeType, size: string, image: Image)
      ensures this.nodeType == nodeType && this.size == size && this.image == image && settings == null
    {
      this.nodeType, this.size, this.image, settings := nodeType, size, image, null;
    }
  }

  /** A provider: its images in order, and whether it has settings of its own (only Exoscale has). */
  datatype Provider = Provider(master: seq<Image>, worker: seq<Image>, loadBalancer: seq<Image>, hasSettings: bool) {
    function MachineImages(t: NodeType): seq<Image> {
      match t case Master => master case Worker => worker case LoadBalancer => loadBalancer
    }
  }

  function Get(f: Fields, k: string): int { if k in f then f[k] else 0 }

  /** What Terraform gets to see: a missing number is zero. */
  function Seen(f: Fields): (int, int) { (Get(f, STORAGE), Get(f, DISK)) }

  function Typed(storage: int, disk: int): Fields { map[STORAGE := storage, DISK := disk] }

  function Floats(f: Fields): Fields { map k | k in f :: Float(f[k]) }

  function Decoded(f: Fields, typed: bool): Fields {
    if typed then f else Typed(ToInt64(Get(f, STORAGE)), ToInt64(Get(f, DISK)))
  }

  method LookupImage(p: Provider, t: NodeType, name: string) returns (r: Option<Image>)
    ensures r == Lookup(p.MachineImages(t), name)
  {
    var images := p.MachineImages(t);
    var i := 0;
    while i < |images|
      invariant i <= |images| && Lookup(images, name) == Lookup(images[i..], name)
    {
      if images[i].name == name { return Some(images[i]); }
      i := i + 1;
    }
    r := None;
  }

  function LatestImage(p: Provider, t: NodeType): Image
    requires p.MachineImages(t) != []
  {
    var images := p.MachineImages(t);
    images[|images| - 1]
  }

  /** Decode the settings into a new object of the provider's own type. */
  method DecodeMachine(p: Provider, m: Machine)
    modifies m`settings
    ensures m.settings == old(m.settings) || fresh(m.settings)
    ensures old(m.settings) == null || !p.hasSettings ==> m.settings == old(m.settings)
    ensures old(m.settings) != null && p.hasSettings ==>
              && m.settings != null && fresh(m.settings) && m.settings.typed
              && m.settings.fields == Decoded(old(m.settings.fields), old(m.settings.typed))
  {
    if m.settings == null || !p.hasSettings { return; }
    var f := m.settings.fields;
    m.settings := new Settings(true, Decoded(f, m.settings.typed));
  }

  /** A copy of the settings made by writing and reading JSON. */
  method ThroughJSON(s: Settings) returns (copy: Settings)
    ensures fresh(copy) && !copy.typed && copy.fields == Floats(s.fields)
  {
    copy := new Settings(false, Floats(s.fields));
  }

  /** The settings of a clone as the factory leaves them. */
  function Cloned(p: Provider, f: Fields): Fields {
    if p.hasSettings then Decoded(Floats(f), false) else Floats(f)
  }

  class Factory {
    const provider: Provider
    const machine: Machine
    var imageName: string

    constructor (provider: Provider, nodeType: NodeType, size: string)
      requires provider.MachineImages(nodeType) != []
      ensures this.provider == provider && fresh(machine) && imageName == ""
      ensures machine.nodeType == nodeType && machine.size == size && machine.settings == null
      ensures machine.image == LatestImage(provider, nodeType)
      ensures var images := provider.MachineImages(nodeType); machine.image == images[|images| - 1]
    {
      this.provider, imageName := provider, "";
      machine := new Machine(nodeType, size, LatestImage(provider, nodeType));
    }

    constructor FromExisting(provider: Provider, m: Machine)
      ensures this.provider == provider && fresh(machine) && imageName == ""
      ensures machine.nodeType == m.nodeType && machine.size == m.size && machine.image == m.image
      ensures m.settings == null ==> machine.settings == null
      ensures m.settings != null ==>
                && machine.settings != null && fresh(machine.settings) && machine.settings.typed == provider.hasSettings
                && machine.settings.fields == Cloned(provider, m.settings.fields)
    {
      this.provider, imageName := provider, "";
      var c := new Machine(m.nodeType, m.size, m.image);
      machine := c;
      new;
      if m.settings != null {
        var copy := ThroughJSON(m.settings);
        machine.settings := copy;
        DecodeMachine(provider, machine);
      }
    }

    method WithImage(name: string)
      modifies this
      ensures imageName == name
    {
      imageName := name;
    }

    /** `None` for an image the provider does not have. */
    method Build() returns (r: Option<Machine>)
      modifies machine
      ensures r.Some? <==> imageName == "" || Lookup(provider.MachineImages(old(machine.nodeType)), imageName).Some?
      ensures r.Some? ==> r.value == machine
      ensures r.Some? ==> machine.image == if imageName == "" then old(machine.image)
                                           else Lookup(provider.MachineImages(old(machine.nodeType)), imageName).value
      ensures machine.nodeType == old(machine.nodeType) && machine.size == old(machine.size)
      ensures old(machine.settings) == null ==> machine.settings == null
      ensures machine.settings == old(machine.settings) || fresh(machine.settings)
      ensures r.Some? && old(machine.settings) != null ==>
                && machine.settings != null
                && machine.settings.fields ==
                    if provider.hasSettings then Decoded(old(machine.settings.fields), old(machine.settings.typed))
                                              else old(machine.settings.fields)
    {
      if imageName != "" {
        var image := LookupImage(provider, machine.nodeType, imageName);
        if image.None? { return None; }
        machine.image := image.value;
      }
      DecodeMachine(provider, machine);
      r := Some(machine);
    }
  }

  /** The configured machines of a cluster, by reference. */
  class Cluster {
    const provider: Provider
    var machines: map<Name, Machine>

    constructor (provider: Provider)
      ensures this.provider == provider && machines == map[]
    {
      this.provider, machines := provider, map[];
    }

    method AddMachine(name: Name, m: Machine) returns (ok: bool)
      modifies this
      ensures ok <==> name !in old(machines)
      ensures machines == if ok then old(machines)[name := m] else old(machines)
    {
      if name in machines { return false; }
      machines := machines[name := m];
      ok := true;
    }

    /** Clone a machine under a new name. With an image the clone is a new object that shares no settings
        with the original; without one the same object is stored twice. Nothing else on the heap changes. */
    method CloneMachine(name: Name, into: Name, image: string) returns (ok: bool)
      modifies this
      ensures ok <==> && name in old(machines) && into !in old(machines)
                      && (image == "" || Lookup(provider.MachineImages(old(machines[name].nodeType)), image).Some?)
      ensures !ok ==> machines == old(machines)
      ensures ok ==> into in machines && machines == old(machines)[into := machines[into]]
      ensures ok && image == "" ==> machines[into] == old(machines[name])
      ensures ok && image != "" ==>
                var m, c := machines[name], machines[into];
                && fresh(c) && c.nodeType == m.nodeType && c.size == m.size
                && Some(c.image) == Lookup(provider.MachineImages(m.nodeType), image)
                && (c.settings == null <==> m.settings == null)
                && (m.settings != null ==>
                      fresh(c.settings) && c.settings.fields == Cloned(provider, m.settings.fields))
    {
      if name !in machines { return false; }
      var m := machines[name];
      if image != "" {
        var f := new Factory.FromExisting(provider, m);
        f.WithImage(image);
        var built := f.Build();
        if built.None? { return false; }
        m := built.value;
      }
      ok := AddMachine(into, m);
    }
  }

  /** What Terraform sees of a clone's settings is what it saw of the original's exactly if both numbers
      fit 53 bits; so for the provider with settings of its own nothing is lost up to 2^53. */
  lemma CloneSeesTheSame(p: Provider, f: Fields)
    requires p.hasSettings && INT_MIN <= Get(f, STORAGE) <= INT_MAX && INT_MIN <= Get(f, DISK) <= INT_MAX
    ensures Seen(Cloned(p, f)) == Seen(f) <==> Representable(Abs(Get(f, STORAGE))) && Representable(Abs(Get(f, DISK)))
    ensures Abs(Get(f, STORAGE)) <= MANTISSA && Abs(Get(f, DISK)) <= MANTISSA ==> Seen(Cloned(p, f)) == Seen(f)
  {
    CopiedExactly(Get(f, STORAGE));
    CopiedExactly(Get(f, DISK));
    CopiedExactly(0);
    hide Float, ToInt64, Representable;
    assert STORAGE != DISK by { assert |STORAGE| != |DISK|; }
  }
}
