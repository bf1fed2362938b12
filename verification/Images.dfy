/** Machine images and the kubelet/API-server version skew test. */
module Images {
  import opened Wrappers

  // Version components are 64-bit unsigned integers.
  const UINT_LIMIT: nat := 0x1_0000_0000_0000_0000
  type uint = n: nat | n < UINT_LIMIT

  datatype Version = Version(major: uint, minor: uint, patch: uint)

  /** A machine image; an image that is no Kubernetes image has no kubelet version. */
  datatype Image = Image(name: string, kubelet: Option<Version>)

  datatype Verdict = Supported | KubeletNew | KubeletOld | BadServerVersion | NilDereference

  /** Unsigned subtraction with wrap-around. */
  function Minus(a: uint, b: uint): uint {
    if a >= b then a - b else UINT_LIMIT + a - b
  }

  /** `server` is None when the version string does not parse. */
  function IsSupported(image: Image, server: Option<Version>): Verdict {
    if server.None? then BadServerVersion
    else if image.kubelet.None? then NilDereference
    else if server.value.minor < image.kubelet.value.minor then KubeletNew
    else if Minus(server.value.minor, image.kubelet.value.minor) > 2 then KubeletOld
    else Supported
  }

  /** The kubelet is at most two minor versions older than the server and never newer. */
  ghost predicate InSkew(image: Image, server: Version) {
    image.kubelet.Some? && 0 <= server.minor - image.kubelet.value.minor <= 2
  }

  /** Without the first comparison the unsigned difference would let nothing newer pass either,
      except where it wraps around; with it the test is the version-skew policy on minors. */
  lemma SupportedExactly(image: Image, server: Version)
    ensures IsSupported(image, Some(server)) == Supported <==> InSkew(image, server)
    ensures image.kubelet.Some? && server.minor >= image.kubelet.value.minor ==>
              Minus(server.minor, image.kubelet.value.minor) == server.minor - image.kubelet.value.minor
  {}

  /** No image before the one found has the name. */
  lemma {:induction false} LookupFirst(images: seq<Image>, name: string) returns (i: nat)
    requires Lookup(images, name).Some?
    ensures i < |images| && images[i] == Lookup(images, name).value && images[i].name == name
    ensures forall j :: 0 <= j < i ==> images[j].name != name
    decreases |images|
  {
    if images[0].name == name {
      i := 0;
    } else {
      var k := LookupFirst(images[1..], name);
      i := k + 1;
    }
  }

  /** First image of that name, in the provider's order. */
  function Lookup(images: seq<Image>, name: string): (r: Option<Image>)
    ensures r.Some? ==> r.value in images && r.value.name == name
    ensures r.None? ==> forall i :: i in images ==> i.name != name
  {
    if images == [] then None
    else if images[0].name == name then Some(images[0])
    else Lookup(images[1..], name)
  }
}
