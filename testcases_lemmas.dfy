/** What the scenario matrix promises: the exact lists of every selector,
    the host-dependent cross build, the supported image values, the rootfs
    fragment of each preset and the shape of the test identifier. */
module TestCaseLemmas {
  import opened Wrappers
  import opened Strings
  import opened TestCases

  /** Overriding the image or the target architecture of a preset never
      changes its rootfs fragment: none for Centos, btrfs for both Fedoras. */
  lemma PresetRootfsArgs(centosRef: string, image: string, targetArch: string)
    ensures Centos(centosRef).(image := image, targetArch := targetArch).RootfsArgs() == []
    ensures Fedora().(image := image, targetArch := targetArch).RootfsArgs() == ["--rootfs", "btrfs"]
    ensures Fedora41().(image := image, targetArch := targetArch).RootfsArgs() == ["--rootfs", "btrfs"]
  {
  }

  /** The four selectors whose lists are written out literally. */
  lemma SimpleSelectors(hostArch: string, centosRef: string)
    ensures Gen("manifest", hostArch, centosRef) == Success([Centos(centosRef), Fedora()])
    ensures Gen("default-rootfs", hostArch, centosRef) == Success([Centos(centosRef)])
    ensures Gen("ami-boot", hostArch, centosRef)
         == Success([Centos(centosRef).(image := "ami"), Fedora().(image := "ami")])
    ensures Gen("anaconda-iso", hostArch, centosRef)
         == Success([Centos(centosRef).(image := "anaconda-iso"), Fedora().(image := "anaconda-iso")])
  {
  }

  /** `default-rootfs` only holds scenarios that pass no --rootfs flag. */
  lemma DefaultRootfsPassesNoRootfs(hostArch: string, centosRef: string)
    ensures Gen("default-rootfs", hostArch, centosRef).Success?
    ensures forall t :: t in Gen("default-rootfs", hostArch, centosRef).value ==> t.RootfsArgs() == []
  {
  }

  /** `qemu-boot`: raw and qcow2 for Centos then Fedora, plus one
      Centos raw arm64 cross build exactly when the host is x86_64. */
  lemma QemuBoot(hostArch: string, centosRef: string)
    ensures Gen("qemu-boot", hostArch, centosRef).Success?
    ensures var r := Gen("qemu-boot", hostArch, centosRef).value;
      && |r| == (if hostArch == "x86_64" then 5 else 4)
      && r[..4] == [
           Centos(centosRef).(image := "raw"), Centos(centosRef).(image := "qcow2"),
           Fedora().(image := "raw"), Fedora().(image := "qcow2")]
      && (QemuCrossCase(centosRef) in r <==> hostArch == "x86_64")
      && (hostArch == "x86_64" ==> r[4] == Centos(centosRef).(image := "raw", targetArch := "arm64"))
  {
    var presets := [Centos(centosRef), Fedora()];
    var base := Product(presets, QemuBootImages);
    ProductAt(presets, QemuBootImages, 0, 0);
    ProductAt(presets, QemuBootImages, 0, 1);
    ProductAt(presets, QemuBootImages, 1, 0);
    ProductAt(presets, QemuBootImages, 1, 1);
    assert base == [
      Centos(centosRef).(image := "raw"), Centos(centosRef).(image := "qcow2"),
      Fedora().(image := "raw"), Fedora().(image := "qcow2")];
    var r := base + QemuCrossCases(hostArch, centosRef);
    assert r[..4] == base;
  }

  /** `all`: ten scenarios, the five images in order for Centos, then the
      same five for Fedora; only the image differs from the preset. */
  lemma AllMatrix(hostArch: string, centosRef: string)
    ensures Gen("all", hostArch, centosRef).Success?
    ensures var r := Gen("all", hostArch, centosRef).value;
      && |r| == 10
      && (forall k :: 0 <= k < 5 ==> r[k] == Centos(centosRef).(image := AllImages[k]))
      && (forall k :: 5 <= k < 10 ==> r[k] == Fedora().(image := AllImages[k - 5]))
  {
    var presets := [Centos(centosRef), Fedora()];
    var r := Product(presets, AllImages);
    forall k | 0 <= k < 5
      ensures r[k] == Centos(centosRef).(image := AllImages[k])
    {
      ProductAt(presets, AllImages, 0, k);
    }
    forall k | 5 <= k < 10
      ensures r[k] == Fedora().(image := AllImages[k - 5])
    {
      ProductAt(presets, AllImages, 1, k - 5);
    }
  }

  /** The multi-disk image value is "qcow2+raw+vmdk", and it names every
      disk image type once. */
  lemma MultiDiskImageKinds()
    ensures MultiDiskImage() == "qcow2+raw+vmdk"
    ensures Split(MultiDiskImage(), '+') == DiskImageTypes
    ensures NoDuplicates(Split(MultiDiskImage(), '+'))
    ensures IsMultiDisk(MultiDiskImage())
  {
    var kinds := DiskImageTypes;
    assert Join('+', kinds) == "qcow2+raw+vmdk";
    assert forall k :: k in kinds ==> '+' !in k by {
      assert '+' !in kinds[0] && '+' !in kinds[1] && '+' !in kinds[2];
    }
    SplitJoin(kinds, '+');
    assert NoDuplicates(kinds);
  }

  /** `multidisk`: one Centos and one Fedora scenario that each build
      every disk image type from one manifest. */
  lemma Multidisk(hostArch: string, centosRef: string)
    ensures Gen("multidisk", hostArch, centosRef)
         == Success([Centos(centosRef).(image := "qcow2+raw+vmdk"), Fedora().(image := "qcow2+raw+vmdk")])
  {
    MultiDiskImageKinds();
  }

  /** `target-arch-smoke`: Centos for arm64, then Fedora 41 for ppc64le and
      s390x, none of them asking for an image type. */
  lemma TargetArchSmoke(hostArch: string, centosRef: string)
    ensures Gen("target-arch-smoke", hostArch, centosRef).Success?
    ensures var r := Gen("target-arch-smoke", hostArch, centosRef).value;
      && r == [
           Centos(centosRef).(targetArch := "arm64"),
           Fedora41().(targetArch := "ppc64le"),
           Fedora41().(targetArch := "s390x")]
      && (forall t :: t in r ==> t.image == "")
  {
  }

  /** Every scenario of every selector asks for a supported image value. */
  lemma GenImagesSupported(what: string, hostArch: string, centosRef: string)
    requires Gen(what, hostArch, centosRef).Success?
    ensures forall t :: t in Gen(what, hostArch, centosRef).value ==> IsSupportedImage(t.image)
  {
    if what == "qemu-boot" {
      QemuBootImagesSupported(hostArch, centosRef);
    } else if what == "all" {
      AllImagesSupported(hostArch, centosRef);
    } else if what == "multidisk" {
      MultiDiskImageKinds();
    }
  }

  lemma QemuBootImagesSupported(hostArch: string, centosRef: string)
    ensures Gen("qemu-boot", hostArch, centosRef).Success?
    ensures forall t :: t in Gen("qemu-boot", hostArch, centosRef).value ==> IsSupportedImage(t.image)
  {
    QemuBoot(hostArch, centosRef);
    var r := Gen("qemu-boot", hostArch, centosRef).value;
    assert forall k :: 0 <= k < |r| ==> r[k].image == "raw" || r[k].image == "qcow2";
  }

  lemma AllImagesSupported(hostArch: string, centosRef: string)
    ensures Gen("all", hostArch, centosRef).Success?
    ensures forall t :: t in Gen("all", hostArch, centosRef).value ==> IsSupportedImage(t.image)
  {
    AllMatrix(hostArch, centosRef);
    var r := Gen("all", hostArch, centosRef).value;
    assert forall x :: x in AllImages ==> IsSupportedImage(x);
    forall k | 0 <= k < |r| ensures r[k].image in AllImages {
      if k < 5 { assert r[k].image == AllImages[k]; }
      else { assert r[k].image == AllImages[k - 5]; }
    }
  }

  /** Every scenario of every selector keeps the container reference and
      the rootfs of its preset, so its rootfs fragment is the preset's. */
  lemma GenRootfsArgs(what: string, hostArch: string, centosRef: string)
    requires Gen(what, hostArch, centosRef).Success?
    ensures forall t :: t in Gen(what, hostArch, centosRef).value ==> FromPreset(t, centosRef)
    ensures forall t :: t in Gen(what, hostArch, centosRef).value ==>
      || (t.containerRef == centosRef && t.RootfsArgs() == [])
      || (t.containerRef in [Fedora40Ref, Fedora41Ref] && t.RootfsArgs() == ["--rootfs", "btrfs"])
  {
    var r := Gen(what, hostArch, centosRef).value;
    if what == "qemu-boot" {
      QemuBoot(hostArch, centosRef);
      assert r == r[..4] + r[4..];
    } else if what == "all" {
      AllMatrix(hostArch, centosRef);
      forall t | t in r ensures FromPreset(t, centosRef) {
        var k :| 0 <= k < |r| && r[k] == t;
      }
    }
  }

  /** The identifier lists the non-empty values in name order; splitting it
      on "," gives them back when no value contains a comma. */
  lemma IdentifierRoundTrip(t: TestCase)
    requires forall v :: v in t.ValuesByName() ==> ',' !in v
    requires t != Blank
    ensures Split(t.Identifier(), ',') == NonEmpty(t.ValuesByName())
  {
    var parts := NonEmpty(t.ValuesByName());
    assert parts != [] by {
      assert t.Identifier() != "";
    }
    SplitJoin(parts, ',');
  }

  /** The identifier's parts: the set values, in name order. */
  lemma {:induction false} IdentifierParts(t: TestCase)
    ensures NonEmpty(t.ValuesByName())
         == (if t.containerRef == "" then [] else [t.containerRef])
          + (if t.image == "" then [] else [t.image])
          + (if t.rootfs == "" then [] else [t.rootfs])
          + (if t.targetArch == "" then [] else [t.targetArch])
  {
    var v := t.ValuesByName();
    assert v[1..] == [t.image, t.rootfs, t.targetArch];
    assert v[1..][1..] == [t.rootfs, t.targetArch];
    assert v[1..][1..][1..] == [t.targetArch];
    var e2 := NonEmpty(v[1..][1..][1..]);
    var e1 := NonEmpty(v[1..][1..]);
    var e0 := NonEmpty(v[1..]);
    assert e2 == (if t.targetArch == "" then [] else [t.targetArch]) + NonEmpty([]);
    assert e1 == (if t.rootfs == "" then [] else [t.rootfs]) + e2;
    assert e0 == (if t.image == "" then [] else [t.image]) + e1;
    assert NonEmpty(v) == (if t.containerRef == "" then [] else [t.containerRef]) + e0;
  }

  /** A scenario with only a container reference and an image type set is
      identified by the two joined by ",". */
  lemma IdentifierOfRefAndImage(t: TestCase)
    requires t.containerRef != "" && t.image != "" && t.rootfs == "" && t.targetArch == ""
    ensures t.Identifier() == t.containerRef + "," + t.image
  {
    IdentifierParts(t);
    assert NonEmpty(t.ValuesByName()) == [t.containerRef, t.image];
    assert Join(',', [t.image]) == t.image;
  }

  /** With every field set, the identifier lists the values as
      container_ref, image, rootfs, target_arch: sorted by attribute name. */
  lemma IdentifierFieldOrder(t: TestCase)
    requires t.containerRef != "" && t.image != "" && t.rootfs != "" && t.targetArch != ""
    ensures t.Identifier() == t.containerRef + "," + t.image + "," + t.rootfs + "," + t.targetArch
  {
    IdentifierParts(t);
    var tail := [t.image, t.rootfs, t.targetArch];
    assert NonEmpty(t.ValuesByName()) == [t.containerRef] + tail;
    assert Join(',', tail[1..][1..]) == t.targetArch;
    assert Join(',', tail[1..]) == t.rootfs + "," + t.targetArch;
    assert Join(',', tail) == t.image + "," + t.rootfs + "," + t.targetArch;
  }

  /** The identifier of a Centos scenario that only overrides the image. */
  lemma CentosImageIdentifier(centosRef: string, image: string)
    requires centosRef != "" && image != ""
    ensures Centos(centosRef).(image := image).Identifier() == centosRef + "," + image
  {
    IdentifierOfRefAndImage(Centos(centosRef).(image := image));
  }
}
