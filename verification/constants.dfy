/**
 * Card modes the host controller can be programmed for, and the clock ceilings
 * the driver defines for some of them.
 */
module UsdhcConstants {
  import opened Machine

  /**
   * The electrical/bus configuration currently programmed into the controller.
   * A fieldless enumeration: two modes are equal exactly when they are the same
   * constructor, which is what the "already in identification mode" test relies on.
   */
  datatype CardMode =
    | Unknown
    | Sd1              // SD 1-bit
    | Sd4              // SD 4-bit
    | Mmc1             // MMC 1-bit
    | Mmc4             // MMC 4-bit
    | Mmc8             // MMC 8-bit
    | Identification   // up to 400 kHz
    | MmcFullSpeed     // up to 26 MHz
    | MmcHighSpeed     // up to 52 MHz
    | MmcHs200         // up to 200 MHz
    | MmcDdr           // 52 MHz on both edges
    | SdSdioFullSpeed  // up to 25 MHz
    | SdSdioHighSpeed  // up to 50 MHz
    | SdSdioUhsI       // up to 208 MHz SDR, 50 MHz DDR

  const SD_MAX_INIT_RATE_HZ: u32 := 400_000
  const SD_MAX_MMC_FULL_SPEED_RATE_HZ: u32 := 26_000_000
  const SD_MAX_MMC_HIGH_SPEED_RATE_HZ: u32 := 52_000_000
  const SD_MAX_MMC_HS200_RATE_HZ: u32 := 200_000_000
  const SD_MAX_MMC_DDR_RATE_HZ: u32 := 52_000_000

  /**
   * The maximum SD clock each mode's documentation promises, in Hz
   * (for UHS-I the SDR figure); None for the modes documented by bus width only.
   */
  function DocumentedMaxRateHz(m: CardMode): (r: Option<nat>)
    ensures r.Some? <==> m in {Identification, MmcFullSpeed, MmcHighSpeed, MmcHs200, MmcDdr,
                               SdSdioFullSpeed, SdSdioHighSpeed, SdSdioUhsI}
    ensures r.Some? ==> 400_000 <= r.value <= 208_000_000
  {
    match m
    case Identification => Some(400_000)
    case MmcFullSpeed => Some(26_000_000)
    case MmcHighSpeed => Some(52_000_000)
    case MmcHs200 => Some(200_000_000)
    case MmcDdr => Some(52_000_000)
    case SdSdioFullSpeed => Some(25_000_000)
    case SdSdioHighSpeed => Some(50_000_000)
    case SdSdioUhsI => Some(208_000_000)
    case _ => None
  }

  /** The rate constant the driver defines for a mode, if it defines one. */
  function RateCeilingHz(m: CardMode): (r: Option<u32>)
    ensures r.Some? <==> m in {Identification, MmcFullSpeed, MmcHighSpeed, MmcHs200, MmcDdr}
  {
    match m
    case Identification => Some(SD_MAX_INIT_RATE_HZ)
    case MmcFullSpeed => Some(SD_MAX_MMC_FULL_SPEED_RATE_HZ)
    case MmcHighSpeed => Some(SD_MAX_MMC_HIGH_SPEED_RATE_HZ)
    case MmcHs200 => Some(SD_MAX_MMC_HS200_RATE_HZ)
    case MmcDdr => Some(SD_MAX_MMC_DDR_RATE_HZ)
    case _ => None
  }

  /** Every rate constant the driver defines agrees with its mode's documentation. */
  lemma CeilingsMatchDocumentation(m: CardMode)
    requires RateCeilingHz(m).Some?
    ensures DocumentedMaxRateHz(m) == Some(RateCeilingHz(m).value as nat)
  {
  }
}
