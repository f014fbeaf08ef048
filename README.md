# Test-scenario matrix of the bootc image builder tests

This project models the scenario matrix that the integration tests of the
container-based OS image builder run over (`test/testcases.py`). A
`TestCase` names one build: the bootc container to build from
(`container_ref`), the image type or types to produce (`image`), the target
architecture (`target_arch`) and the root filesystem (`rootfs`). An empty
field means "not set". Three presets change only the default values of
the container reference and the rootfs:

- Fedora 40 with btrfs.
- Fedora 41 with btrfs.
- Centos Stream 9, which keeps the container's own rootfs.

`gen_testcases` maps a selector such as `qemu-boot` or `all` to an ordered
list of scenarios. Any other selector raises an error.

The model is pure, like the source:

- `wrappers.dfy` holds `Option` and `Result`.
- `strings.dfy` holds Python's `str.join` and `str.split` on a one-character
  separator, the filter that drops empty strings, and a proof that splitting
  undoes joining.
- `testcases.dfy` holds the record, the presets, the generator and the
  supported-image invariant.
- `testcases_lemmas.dfy` holds the properties of the generator and of the
  identifier.

A constructor call with keyword overrides, such as
`TestCaseCentos(image="raw", target_arch="arm64")`, is the datatype update
`Centos(centosRef).(image := "raw", targetArch := "arm64")`.

Two pieces of ambient process state are explicit parameters instead:

- The host machine name is the `hostArch` argument of `Gen`. The source
  reads it from `platform.machine()`.
- The Centos container reference is the `centosRef` argument of `Gen`.
  `CentosRef` derives it from the optional `BIB_TEST_BOOTC_CONTAINER_TAG`
  environment value.

The identifier (`__str__`) collects the public, non-callable, non-empty
attributes through `inspect.getmembers`. That function returns members
sorted by name, so the values appear as container_ref, image, rootfs,
target_arch. The model lists them in that order explicitly (`ValuesByName`).
A field order fixed "as declared" would put target_arch before rootfs.
The model follows the code.

## Model

| member | source | states |
|---|---|---|
| TestCases.TestCase.RootfsArgs | test/testcases.py:25-28 | the fragment is empty exactly when rootfs is unset, and is `["--rootfs", rootfs]` otherwise |
| TestCases.TestCase.Identifier | test/testcases.py:30-35 | the identifier is empty exactly when every field is empty |
| TestCaseLemmas.IdentifierRoundTrip | test/testcases.py:30-35 | splitting the identifier on "," gives back the non-empty field values in name order, when some field is set and no value holds a comma |
| TestCaseLemmas.IdentifierParts | test/testcases.py:30-35 | the identifier's parts are the set values among container_ref, image, rootfs, target_arch, in that (name-sorted) order, with empty values dropped |
| TestCaseLemmas.IdentifierOfRefAndImage | test/testcases.py:30-35 | with only container_ref and image set, the identifier is the two values joined by "," |
| TestCaseLemmas.IdentifierFieldOrder | test/testcases.py:30-35 | with every field set, the identifier is container_ref, image, rootfs, target_arch joined by ",", so rootfs comes before target_arch |
| TestCaseLemmas.CentosImageIdentifier | test/testcases.py:50-54 | a Centos scenario that overrides only the image is identified as `<centos ref>,<image>` |
| TestCases.CentosRef | test/testcases.py:52-54 | the Centos reference is the environment value when the variable is set, and `quay.io/centos-bootc/centos-bootc:stream9` otherwise |
| TestCaseLemmas.PresetRootfsArgs | test/testcases.py:38-54 | whatever image and target arch override it, a Centos scenario passes no rootfs flag, and a Fedora 40 or Fedora 41 scenario passes `--rootfs btrfs` |
| TestCases.Fedora | test/testcases.py:38-41 | the Fedora preset builds from `quay.io/fedora/fedora-bootc:40` with rootfs `btrfs`, and leaves image and target arch unset |
| TestCases.Fedora41 | test/testcases.py:44-47 | the Fedora 41 preset builds from `quay.io/fedora/fedora-bootc:41` with rootfs `btrfs`, and leaves image and target arch unset |
| TestCases.Centos | test/testcases.py:50-54 | the Centos preset builds from the given Centos reference, leaves the rootfs unset (the container's default), and leaves image and target arch unset |
| TestCases.Product | test/testcases.py:68-72 | the nested comprehension yields one scenario per preset and image; its inner loop over the images is WithImages |
| TestCases.MultiDiskImage | test/testcases.py:90 | the disk image types joined by "+" are `qcow2+raw+vmdk` |
| TestCases.QemuCrossCase | test/testcases.py:76-77 | the cross build is a Centos scenario for a raw image with target arch `arm64`, rootfs unset |
| TestCases.QemuCrossCases | test/testcases.py:73-80 | an x86_64 host gets exactly one cross-build case, the Centos raw arm64 one; every other host, arm64 included, gets none |
| TestCases.ProductAt | test/testcases.py:83-87 | in the nested comprehension, preset i with image j is at position i * (number of images) + j: presets outer, images inner |
| TestCases.Gen | test/testcases.py:57-104 | the generator succeeds exactly for the eight known selectors; any other selector fails with "unknown test-case type <selector>" and produces no list |
| TestCaseLemmas.SimpleSelectors | test/testcases.py:58-66 | `manifest` gives Centos then Fedora; `default-rootfs` gives only Centos; `ami-boot` and `anaconda-iso` give Centos then Fedora with that image |
| TestCaseLemmas.DefaultRootfsPassesNoRootfs | test/testcases.py:60-62 | no scenario of `default-rootfs` passes a rootfs flag |
| TestCaseLemmas.QemuBoot | test/testcases.py:67-81 | `qemu-boot` starts with Centos raw, Centos qcow2, Fedora raw, Fedora qcow2. It contains the Centos raw arm64 cross build exactly when the host is x86_64, as its fifth entry. It has 5 entries on x86_64 and 4 on any other host, arm64 included |
| TestCaseLemmas.AllMatrix | test/testcases.py:82-87 | `all` has 10 entries: Centos with ami, anaconda-iso, qcow2, raw, vmdk, then Fedora with the same five; each differs from its preset only in the image |
| TestCaseLemmas.MultiDiskImageKinds | test/testcases.py:88-90 | the joined disk types are `qcow2+raw+vmdk`; split on "+" they are exactly the disk image types, with no duplicates |
| TestCaseLemmas.Multidisk | test/testcases.py:88-94 | `multidisk` is exactly Centos then Fedora, each with image `qcow2+raw+vmdk` |
| TestCaseLemmas.TargetArchSmoke | test/testcases.py:95-103 | `target-arch-smoke` is Centos for arm64, then Fedora 41 for ppc64le, then Fedora 41 for s390x; none sets an image |
| TestCaseLemmas.GenImagesSupported | test/testcases.py:6-10 | every image in every successful result is one of: unset, a disk type, a cloud-boot type, `anaconda-iso`, or two or more distinct disk types joined by "+" |
| TestCaseLemmas.GenRootfsArgs | test/testcases.py:57-104 | every scenario of every selector keeps a preset's container reference and rootfs. Centos scenarios pass no rootfs flag; Fedora scenarios pass `--rootfs btrfs` |

## Left out

- `test/test_opts.py` as a whole. Its tests run the builder under podman with `subprocess` and check file ownership (`--chown`), the logged `--tls-verify` value, or the refusal of cross-architecture ISO builds. That behaviour belongs to the builder image, which is not part of this model.
- The `containerbuild` fixtures and pytest's fixture and parametrisation machinery. They are not part of this model.
- `platform.machine()` and `os.getenv` as process-global reads. They become the parameters `hostArch` and `centosRef` (see `CentosRef`). The source reads the environment once, when the module is imported.
- Python reflection (`inspect.getmembers`, `callable`, the leading-underscore filter). It is replaced by the explicit name-ordered field list `ValuesByName`.
- The preset subclasses. `TestCaseFedora`, `TestCaseFedora41` and `TestCaseCentos` become one `TestCase` datatype built by preset functions. Python's dataclass equality also compares the class, and its `repr` names it; the model keeps neither. This changes nothing the matrix produces: the presets always differ in container reference or rootfs, and `__str__` never shows the class.
- Determinism (same selector, host and reference give the same list) needs no lemma: `Gen` is a function.
