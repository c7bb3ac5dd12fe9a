/** The control-file registry of perfmode: five fixed sysfs paths, one for
    the keyboard backlight and, for each of the two tunable policies, one
    under each of the two competing vendor drivers. */
module Registry {

  /** The control files, tagged as in the source. */
  datatype FileList = LedFile | AsusThermalPolicy | AsusFanPolicy | FstsThermalPolicy | FstsFanPolicy

  /** The two vendor drivers that expose the policy files. */
  datatype Vendor = AsusNbWmi | Faustus

  /** The two policies each vendor driver exposes. */
  datatype Policy = ThrottleThermal | FanBoost

  /** The directory under which both vendor drivers publish their files. */
  const PlatformRoot: string := "/sys/devices/platform/"

  /** `FileList::path`: the absolute path of each control file. Exactly the
      four policy files lie under the platform root; the backlight file lies
      under the LED class directory instead. */
  function Path(f: FileList): (p: string)
    ensures f != LedFile <==> PlatformRoot <= p
  {
    match f
    case LedFile =>
      var p := "/sys/class/leds/asus::kbd_backlight/brightness";
      assert p[5] != PlatformRoot[5];
      p
    case AsusThermalPolicy => "/sys/devices/platform/asus-nb-wmi/throttle_thermal_policy"
    case AsusFanPolicy => "/sys/devices/platform/asus-nb-wmi/fan_boost_mode"
    case FstsThermalPolicy => "/sys/devices/platform/faustus/throttle_thermal_policy"
    case FstsFanPolicy => "/sys/devices/platform/faustus/fan_boost_mode"
  }

  /** The directory name each vendor driver registers under the platform root. */
  function VendorDir(v: Vendor): string
  {
    match v
    case AsusNbWmi => "asus-nb-wmi"
    case Faustus => "faustus"
  }

  /** The file name of each policy, shared by both drivers. */
  function PolicyLeaf(p: Policy): string
  {
    match p
    case ThrottleThermal => "throttle_thermal_policy"
    case FanBoost => "fan_boost_mode"
  }

  /** The tag of the file that vendor `v` exposes for policy `p`. */
  function VendorFile(v: Vendor, p: Policy): (f: FileList)
    ensures f != LedFile
  {
    match (v, p)
    case (AsusNbWmi, ThrottleThermal) => AsusThermalPolicy
    case (AsusNbWmi, FanBoost) => AsusFanPolicy
    case (Faustus, ThrottleThermal) => FstsThermalPolicy
    case (Faustus, FanBoost) => FstsFanPolicy
  }

  /** Every tag but the backlight's is the file of exactly one (vendor, policy) pair. */
  lemma VendorFileBijective(f: FileList)
    ensures f != LedFile <==> exists v, p :: VendorFile(v, p) == f
    ensures forall v1, p1, v2, p2 :: VendorFile(v1, p1) == VendorFile(v2, p2) ==> v1 == v2 && p1 == p2
  {
    match f
    case LedFile =>
    case AsusThermalPolicy => assert VendorFile(AsusNbWmi, ThrottleThermal) == f;
    case AsusFanPolicy => assert VendorFile(AsusNbWmi, FanBoost) == f;
    case FstsThermalPolicy => assert VendorFile(Faustus, ThrottleThermal) == f;
    case FstsFanPolicy => assert VendorFile(Faustus, FanBoost) == f;
  }

  // Each path literal, read as its segments. One literal per lemma keeps
  // the solver's work on string literals small.
  lemma AsusThermalPathSegments()
    ensures Path(AsusThermalPolicy) == PlatformRoot + "asus-nb-wmi" + "/" + "throttle_thermal_policy"
  {
  }

  lemma AsusFanPathSegments()
    ensures Path(AsusFanPolicy) == PlatformRoot + "asus-nb-wmi" + "/" + "fan_boost_mode"
  {
  }

  lemma FstsThermalPathSegments()
    ensures Path(FstsThermalPolicy) == PlatformRoot + "faustus" + "/" + "throttle_thermal_policy"
  {
  }

  lemma FstsFanPathSegments()
    ensures Path(FstsFanPolicy) == PlatformRoot + "faustus" + "/" + "fan_boost_mode"
  {
  }

  /** The vendor variants are structurally parallel: each policy path is the
      platform root, the driver's directory, and the policy's file name. */
  lemma VendorPathShape(v: Vendor, p: Policy)
    ensures Path(VendorFile(v, p)) == PlatformRoot + VendorDir(v) + "/" + PolicyLeaf(p)
  {
    match (v, p)
    case (AsusNbWmi, ThrottleThermal) => AsusThermalPathSegments();
    case (AsusNbWmi, FanBoost) => AsusFanPathSegments();
    case (Faustus, ThrottleThermal) => FstsThermalPathSegments();
    case (Faustus, FanBoost) => FstsFanPathSegments();
  }

  /** No two tags share a path. */
  lemma PathInjective(a: FileList, b: FileList)
    ensures Path(a) == Path(b) <==> a == b
  {
  }
}
