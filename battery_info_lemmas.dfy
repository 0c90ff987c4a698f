/** Properties of the decoders that relate several inputs, or a decode to a reference definition. */
module BatteryInfoLemmas {
  import opened Words
  import opened BatteryProxy
  import opened BatteryTypes
  import opened BatteryInfo

  /** Mask of the three capability bits the decoder reads. */
  const CapabilityMask: bv32 := 0xE000_0000

  /** Only bits 29, 30 and 31 of the capabilities matter; bits 0x1, 0x2 and the rest are ignored. */
  lemma OnlyCapabilityBitsMatter(raw: RawInformation, caps: bv32)
    requires caps & CapabilityMask == raw.capabilities & CapabilityMask
    ensures DecodeInformation(raw.(capabilities := caps)) == DecodeInformation(raw)
  {
  }

  /** Flipping one capability bit flips its own flag and no other decoded field. */
  lemma CapabilityFlagsIndependent(raw: RawInformation)
    ensures var d := DecodeInformation(raw);
      DecodeInformation(raw.(capabilities := raw.capabilities ^ BatteryCapacityRelative))
        == d.(isCapacityRelative := !d.isCapacityRelative)
    ensures var d := DecodeInformation(raw);
      DecodeInformation(raw.(capabilities := raw.capabilities ^ BatteryIsShortTerm))
        == d.(isShortTerm := !d.isShortTerm)
    ensures var d := DecodeInformation(raw);
      DecodeInformation(raw.(capabilities := raw.capabilities ^ BatterySystemBattery))
        == d.(isSystemBattery := !d.isSystemBattery)
  {
  }

  /** The raw bytes of the chemistry tag. */
  function TagBytes(raw: RawInformation): (bytes: seq<byte>) {
    [raw.chemistry1, raw.chemistry2, raw.chemistry3, raw.chemistry4]
  }

  /** The ASCII spelling of each entry of the chemistry table; `Unknown` has none. */
  function Spelling(t: BatteryChemistryType): (spelling: seq<byte>) {
    match t
    case PbAc => [0x50, 0x62, 0x41, 0x63]
    case LION => [0x4C, 0x49, 0x4F, 0x4E]
    case LiI => [0x4C, 0x69, 0x2D, 0x49]
    case NiCd => [0x4E, 0x69, 0x43, 0x64]
    case NiMH => [0x4E, 0x69, 0x4D, 0x48]
    case NiZn => [0x4E, 0x69, 0x5A, 0x6E]
    case RAM => [0x52, 0x41, 0x4D]
    case Unknown => []
  }

  /** A spelling without '?', so that the '?' substitution of ASCII decoding never creates a match. */
  lemma SpellingIsPlainAscii(t: BatteryChemistryType, k: int)
    requires 0 <= k < |Spelling(t)|
    ensures 0 < Spelling(t)[k] < 0x80 && Spelling(t)[k] != '?' as int
  {
  }

  /** The decoded tag equals a table entry's text exactly when the raw bytes are its spelling. */
  lemma TagMatchesSpelling(raw: RawInformation, t: BatteryChemistryType)
    requires t != Unknown
    ensures ChemistryTag(raw) == SpellingText(t) <==> TagBytes(raw) == Spelling(t)
  {
    var tag, bytes, s := ChemistryTag(raw), TagBytes(raw), Spelling(t);
    if |s| == 4 {
      if tag == SpellingText(t) {
        forall k | 0 <= k < 4 ensures bytes[k] == s[k] {
          SpellingIsPlainAscii(t, k);
          assert tag[k] == SpellingText(t)[k];
        }
      }
    }
  }

  /** The table entry's text, as it appears in the `switch`. */
  function SpellingText(t: BatteryChemistryType): (text: string) {
    match t
    case PbAc => "PbAc"
    case LION => "LION"
    case LiI => "Li-I"
    case NiCd => "NiCd"
    case NiMH => "NiMH"
    case NiZn => "NiZn"
    case RAM => "RAM"
    case Unknown => ""
  }

  /**
   * The chemistry decode as a comparison of raw bytes: a named chemistry is produced
   * exactly when the four bytes spell it, `RAM` never, and `Unknown` for every
   * other tag.
   */
  lemma ChemistryByBytes(raw: RawInformation, t: BatteryChemistryType)
    ensures t != Unknown && t != RAM ==>
      (ChemistryOf(ChemistryTag(raw)) == t <==> TagBytes(raw) == Spelling(t))
    ensures ChemistryOf(ChemistryTag(raw)) != RAM
    ensures ChemistryOf(ChemistryTag(raw)) == Unknown <==>
      forall u: BatteryChemistryType :: u != Unknown ==> TagBytes(raw) != Spelling(u)
  {
    var tag := ChemistryTag(raw);
    TagMatchesSpelling(raw, PbAc);
    TagMatchesSpelling(raw, LION);
    TagMatchesSpelling(raw, LiI);
    TagMatchesSpelling(raw, NiCd);
    TagMatchesSpelling(raw, NiMH);
    TagMatchesSpelling(raw, NiZn);
    assert |TagBytes(raw)| != |Spelling(RAM)|;
  }

  /** "RAM" followed by a NUL byte is a four-character tag that matches no entry. */
  lemma RamWithNulIsUnknown(raw: RawInformation)
    requires TagBytes(raw) == [0x52, 0x41, 0x4D, 0x00]
    ensures ChemistryOf(ChemistryTag(raw)) == Unknown
  {
    ChemistryByBytes(raw, Unknown);
  }
}
