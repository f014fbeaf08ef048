/** The test-scenario matrix: one build scenario per record, three named
    presets that only change default field values, and the generator that
    maps a selector to an ordered list of scenarios.

    Ambient process state is passed in explicitly: the host machine name
    (`hostArch`) and the Centos container reference (`centosRef`, see
    `CentosRef` for how the environment decides it). */
module TestCases {
  import opened Wrappers
  import opened Strings

  /** Image types that can be built from a single manifest. */
  const DiskImageTypes: seq<string> := ["qcow2", "raw", "vmdk"]

  /** Image types that can be booted in a cloud. */
  const CloudBootImageTypes: seq<string> := ["ami"]

  /** The installer image type; neither a disk nor a cloud image. */
  const AnacondaIso: string := "anaconda-iso"

  const DefaultCentosRef: string := "quay.io/centos-bootc/centos-bootc:stream9"
  const Fedora40Ref: string := "quay.io/fedora/fedora-bootc:40"
  const Fedora41Ref: string := "quay.io/fedora/fedora-bootc:41"
  const FedoraRootfs: string := "btrfs"

  /** One build scenario. An empty string means "not set": no image type,
      the host architecture, or the container's default rootfs. */
  datatype TestCase = TestCase(containerRef: string, image: string, targetArch: string, rootfs: string)
  {
    /** The command-line fragment that selects the rootfs. */
    function RootfsArgs(): (r: seq<string>)
      ensures rootfs == "" <==> r == []
      ensures rootfs != "" ==> r == ["--rootfs", rootfs]
    {
      if rootfs != "" then ["--rootfs", rootfs] else []
    }

    /** The attribute values in the order of their attribute NAMES
        (container_ref, image, rootfs, target_arch), which is the order in
        which the identifier lists them. */
    function ValuesByName(): seq<string>
    {
      [containerRef, image, rootfs, targetArch]
    }

    /** The test identifier: the non-empty attribute values joined by ",". */
    function Identifier(): (r: string)
      ensures r == "" <==> containerRef == "" && image == "" && rootfs == "" && targetArch == ""
    {
      var values := ValuesByName();
      var parts := NonEmpty(values);
      JoinEmpty(',', parts);
      assert parts != [] ==> parts[0] in parts;
      assert containerRef in values && image in values && rootfs in values && targetArch in values;
      Join(',', parts)
    }
  }

  /** The record with every field at its default. */
  const Blank: TestCase := TestCase("", "", "", "")

  /** The Centos container reference: the environment's override when the
      variable is set (even to the empty string), else the default. */
  function CentosRef(envTag: Option<string>): (r: string)
    ensures envTag.None? ==> r == DefaultCentosRef
    ensures envTag.Some? ==> r == envTag.value
  {
    match envTag
    case None => DefaultCentosRef
    case Some(tag) => tag
  }

  /** The Fedora 40 preset with no field overridden: it builds from
      fedora-bootc:40 and asks for a btrfs root filesystem. */
  function Fedora(): (r: TestCase)
    ensures r.containerRef == Fedora40Ref && r.rootfs == "btrfs"
    ensures r.image == "" && r.targetArch == ""
  {
    Blank.(containerRef := Fedora40Ref, rootfs := FedoraRootfs)
  }

  /** The Fedora 41 preset with no field overridden: it builds from
      fedora-bootc:41 and asks for a btrfs root filesystem. */
  function Fedora41(): (r: TestCase)
    ensures r.containerRef == Fedora41Ref && r.rootfs == "btrfs"
    ensures r.image == "" && r.targetArch == ""
  {
    Blank.(containerRef := Fedora41Ref, rootfs := FedoraRootfs)
  }

  /** The Centos preset with no field overridden: it builds from the given
      reference and keeps the container's default rootfs. */
  function Centos(centosRef: string): (r: TestCase)
    ensures r.containerRef == centosRef && r.rootfs == ""
    ensures r.image == "" && r.targetArch == ""
  {
    Blank.(containerRef := centosRef)
  }

  /** One scenario per image, each the preset with only its image replaced. */
  function WithImages(preset: TestCase, images: seq<string>): seq<TestCase>
  {
    seq(|images|, j requires 0 <= j < |images| => preset.(image := images[j]))
  }

  /** Each preset with each image: presets in the outer loop, images in the
      inner one. */
  function Product(presets: seq<TestCase>, images: seq<string>): (r: seq<TestCase>)
    ensures |r| == |presets| * |images|
  {
    if presets == [] then []
    else WithImages(presets[0], images) + Product(presets[1..], images)
  }

  /** The `i`-th preset with the `j`-th image sits at `i * |images| + j`. */
  lemma {:induction false} ProductAt(presets: seq<TestCase>, images: seq<string>, i: nat, j: nat)
    requires i < |presets| && j < |images|
    ensures i * |images| + j < |Product(presets, images)|
    ensures Product(presets, images)[i * |images| + j] == presets[i].(image := images[j])
  {
    var n := |images|;
    if i > 0 {
      ProductAt(presets[1..], images, i - 1, j);
      assert i * n + j == n + ((i - 1) * n + j);
    }
  }

  /** A scenario's image value is one the builder supports: unset, one
      disk, cloud or installer image type, or several distinct disk image
      types joined by "+". */
  predicate IsSupportedImage(image: string)
  {
    || image == ""
    || image in DiskImageTypes
    || image in CloudBootImageTypes
    || image == AnacondaIso
    || IsMultiDisk(image)
  }

  /** `image` names two or more distinct disk image types joined by "+". */
  predicate IsMultiDisk(image: string)
  {
    var kinds := Split(image, '+');
    && |kinds| >= 2
    && (forall k :: k in kinds ==> k in DiskImageTypes)
    && NoDuplicates(kinds)
  }

  /** `t` keeps the container reference and rootfs of one of the presets:
      Centos keeps the container's default rootfs, both Fedoras ask for btrfs. */
  predicate FromPreset(t: TestCase, centosRef: string)
  {
    || (t.containerRef == centosRef && t.rootfs == "")
    || (t.containerRef in [Fedora40Ref, Fedora41Ref] && t.rootfs == FedoraRootfs)
  }

  /** The selectors the generator knows. */
  const Selectors: seq<string> :=
    ["manifest", "default-rootfs", "ami-boot", "anaconda-iso", "qemu-boot", "all", "multidisk", "target-arch-smoke"]

  /** The image types of the `qemu-boot` matrix, in order. */
  const QemuBootImages: seq<string> := ["raw", "qcow2"]

  /** The image types of the `all` matrix, in order. */
  const AllImages: seq<string> := ["ami", "anaconda-iso", "qcow2", "raw", "vmdk"]

  /** The single image value that asks for every disk image type at once:
      the disk image types joined by "+". */
  function MultiDiskImage(): (r: string)
    ensures r == "qcow2+raw+vmdk"
  {
    assert Join('+', DiskImageTypes[2..]) == "vmdk";
    assert Join('+', DiskImageTypes[1..]) == "raw+vmdk";
    Join('+', DiskImageTypes)
  }

  /** The x86_64 -> arm64 cross build of `qemu-boot`: a Centos raw image
      for arm64. */
  function QemuCrossCase(centosRef: string): (r: TestCase)
    ensures r.containerRef == centosRef && r.rootfs == ""
    ensures r.image == "raw" && r.targetArch == "arm64"
  {
    Centos(centosRef).(image := "raw", targetArch := "arm64")
  }

  /** The cross-build cases `qemu-boot` appends for a host: the one x86_64
      -> arm64 case on an x86_64 host, none on any other host. */
  function QemuCrossCases(hostArch: string, centosRef: string): (r: seq<TestCase>)
    ensures |r| <= 1
    ensures r != [] <==> hostArch == "x86_64"
    ensures forall t :: t in r ==> t == QemuCrossCase(centosRef)
  {
    if hostArch == "x86_64" then [QemuCrossCase(centosRef)]
    else if hostArch == "arm64" then []  // an arm64 -> x86_64 cross build is not defined yet
    else []
  }

  /** The ordered scenario list of a selector, or the unknown-selector error. */
  function Gen(what: string, hostArch: string, centosRef: string): (r: Result<seq<TestCase>>)
    ensures r.Success? <==> what in Selectors
    ensures r.Failure? ==> r.error == "unknown test-case type " + what
  {
    if what == "manifest" then
      Success([Centos(centosRef), Fedora()])
    else if what == "default-rootfs" then
      Success([Centos(centosRef)])
    else if what == "ami-boot" then
      Success([Centos(centosRef).(image := "ami"), Fedora().(image := "ami")])
    else if what == "anaconda-iso" then
      Success([Centos(centosRef).(image := AnacondaIso), Fedora().(image := AnacondaIso)])
    else if what == "qemu-boot" then
      Success(Product([Centos(centosRef), Fedora()], QemuBootImages) + QemuCrossCases(hostArch, centosRef))
    else if what == "all" then
      Success(Product([Centos(centosRef), Fedora()], AllImages))
    else if what == "multidisk" then
      var image := MultiDiskImage();
      Success([Centos(centosRef).(image := image), Fedora().(image := image)])
    else if what == "target-arch-smoke" then
      Success([
        Centos(centosRef).(targetArch := "arm64"),
        Fedora41().(targetArch := "ppc64le"),
        Fedora41().(targetArch := "s390x")
      ])
    else
      Failure("unknown test-case type " + what)
  }
}
