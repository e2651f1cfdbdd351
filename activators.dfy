/** The 79 activator notifications of vMix's TCP API (`ActivatorsData` in
    vmix-tcp/src/acts.rs and src/acts.rs, which declare the same variants).
    The variants fall into four argument shapes; each shape is one
    constructor here, carrying a key that names the variant. */
module Activators {
  import opened Common

  /** Variants carrying `(InputNumber, bool)`. */
  datatype InputBoolKey =
    | Input
    | InputMix2
    | InputMix3
    | InputMix4
    | InputMix5
    | InputMix6
    | InputMix7
    | InputMix8
    | InputMix9
    | InputMix10
    | InputMix11
    | InputMix12
    | InputMix13
    | InputMix14
    | InputMix15
    | InputMix16
    | InputPreview
    | InputPreviewMix2
    | InputPreviewMix3
    | InputPreviewMix4
    | InputPreviewMix5
    | InputPreviewMix6
    | InputPreviewMix7
    | InputPreviewMix8
    | InputPreviewMix9
    | InputPreviewMix10
    | InputPreviewMix11
    | InputPreviewMix12
    | InputPreviewMix13
    | InputPreviewMix14
    | InputPreviewMix15
    | InputPreviewMix16
    | InputPlaying
    | InputAudio
    | InputSolo
    | InputBusAAudio
    | InputBusBAudio
    | InputBusCAudio
    | InputBusDAudio
    | InputBusEAudio
    | InputBusFAudio
    | InputBusGAudio
    | InputMasterAudio
    | Overlay1
    | Overlay2
    | Overlay3
    | Overlay4

  /** Variants carrying `(InputNumber, f32)`. */
  datatype InputFloatKey =
    | InputVolume
    | InputHeadphones

  /** Variants carrying a single `f32`. */
  datatype SingleFloatKey =
    | MasterVolume
    | MasterHeadphones
    | BusAVolume
    | BusBVolume
    | BusCVolume
    | BusDVolume
    | BusEVolume
    | BusFVolume
    | BusGVolume

  /** Variants carrying a single `bool`. */
  datatype SingleBoolKey =
    | MasterAudio
    | BusAAudio
    | BusBAudio
    | BusCAudio
    | BusDAudio
    | BusEAudio
    | BusFAudio
    | BusGAudio
    | BusASolo
    | BusBSolo
    | BusCSolo
    | BusDSolo
    | BusESolo
    | BusFSolo
    | BusGSolo
    | FadeToBlack
    | Recording
    | Streaming
    | External
    | Fullscreen
    | ReplayPlaying

  datatype ActivatorsData =
    | InputBool(ibKey: InputBoolKey, input: InputNumber, active: bool)
    | InputFloat(ifKey: InputFloatKey, input: InputNumber, level: F32)
    | SingleFloat(sfKey: SingleFloatKey, level: F32)
    | SingleBool(sbKey: SingleBoolKey, active: bool)

  /** The variant's name, which is also the keyword vMix sends for it. */
  function InputBoolName(k: InputBoolKey): string {
    match k
    case Input => "Input"
    case InputMix2 => "InputMix2"
    case InputMix3 => "InputMix3"
    case InputMix4 => "InputMix4"
    case InputMix5 => "InputMix5"
    case InputMix6 => "InputMix6"
    case InputMix7 => "InputMix7"
    case InputMix8 => "InputMix8"
    case InputMix9 => "InputMix9"
    case InputMix10 => "InputMix10"
    case InputMix11 => "InputMix11"
    case InputMix12 => "InputMix12"
    case InputMix13 => "InputMix13"
    case InputMix14 => "InputMix14"
    case InputMix15 => "InputMix15"
    case InputMix16 => "InputMix16"
    case InputPreview => "InputPreview"
    case InputPreviewMix2 => "InputPreviewMix2"
    case InputPreviewMix3 => "InputPreviewMix3"
    case InputPreviewMix4 => "InputPreviewMix4"
    case InputPreviewMix5 => "InputPreviewMix5"
    case InputPreviewMix6 => "InputPreviewMix6"
    case InputPreviewMix7 => "InputPreviewMix7"
    case InputPreviewMix8 => "InputPreviewMix8"
    case InputPreviewMix9 => "InputPreviewMix9"
    case InputPreviewMix10 => "InputPreviewMix10"
    case InputPreviewMix11 => "InputPreviewMix11"
    case InputPreviewMix12 => "InputPreviewMix12"
    case InputPreviewMix13 => "InputPreviewMix13"
    case InputPreviewMix14 => "InputPreviewMix14"
    case InputPreviewMix15 => "InputPreviewMix15"
    case InputPreviewMix16 => "InputPreviewMix16"
    case InputPlaying => "InputPlaying"
    case InputAudio => "InputAudio"
    case InputSolo => "InputSolo"
    case InputBusAAudio => "InputBusAAudio"
    case InputBusBAudio => "InputBusBAudio"
    case InputBusCAudio => "InputBusCAudio"
    case InputBusDAudio => "InputBusDAudio"
    case InputBusEAudio => "InputBusEAudio"
    case InputBusFAudio => "InputBusFAudio"
    case InputBusGAudio => "InputBusGAudio"
    case InputMasterAudio => "InputMasterAudio"
    case Overlay1 => "Overlay1"
    case Overlay2 => "Overlay2"
    case Overlay3 => "Overlay3"
    case Overlay4 => "Overlay4"
  }

  function InputFloatName(k: InputFloatKey): string {
    match k
    case InputVolume => "InputVolume"
    case InputHeadphones => "InputHeadphones"
  }

  function SingleFloatName(k: SingleFloatKey): string {
    match k
    case MasterVolume => "MasterVolume"
    case MasterHeadphones => "MasterHeadphones"
    case BusAVolume => "BusAVolume"
    case BusBVolume => "BusBVolume"
    case BusCVolume => "BusCVolume"
    case BusDVolume => "BusDVolume"
    case BusEVolume => "BusEVolume"
    case BusFVolume => "BusFVolume"
    case BusGVolume => "BusGVolume"
  }

  function SingleBoolName(k: SingleBoolKey): string {
    match k
    case MasterAudio => "MasterAudio"
    case BusAAudio => "BusAAudio"
    case BusBAudio => "BusBAudio"
    case BusCAudio => "BusCAudio"
    case BusDAudio => "BusDAudio"
    case BusEAudio => "BusEAudio"
    case BusFAudio => "BusFAudio"
    case BusGAudio => "BusGAudio"
    case BusASolo => "BusASolo"
    case BusBSolo => "BusBSolo"
    case BusCSolo => "BusCSolo"
    case BusDSolo => "BusDSolo"
    case BusESolo => "BusESolo"
    case BusFSolo => "BusFSolo"
    case BusGSolo => "BusGSolo"
    case FadeToBlack => "FadeToBlack"
    case Recording => "Recording"
    case Streaming => "Streaming"
    case External => "External"
    case Fullscreen => "Fullscreen"
    case ReplayPlaying => "ReplayPlaying"
  }

  function Name(a: ActivatorsData): string {
    match a
    case InputBool(k, _, _) => InputBoolName(k)
    case InputFloat(k, _, _) => InputFloatName(k)
    case SingleFloat(k, _) => SingleFloatName(k)
    case SingleBool(k, _) => SingleBoolName(k)
  }

  function ShapeOf(a: ActivatorsData): Shape {
    match a
    case InputBool(_, _, _) => InputBoolShape
    case InputFloat(_, _, _) => InputFloatShape
    case SingleFloat(_, _) => SingleFloatShape
    case SingleBool(_, _) => SingleBoolShape
  }

  /** The keyword match of each `create_*_variant` helper: the variant a
      keyword names, if it is one of this shape. */
  function InputBoolKeyOf(s: string): Option<InputBoolKey> {
    match s
    case "Input" => Some(Input)
    case "InputMix2" => Some(InputMix2)
    case "InputMix3" => Some(InputMix3)
    case "InputMix4" => Some(InputMix4)
    case "InputMix5" => Some(InputMix5)
    case "InputMix6" => Some(InputMix6)
    case "InputMix7" => Some(InputMix7)
    case "InputMix8" => Some(InputMix8)
    case "InputMix9" => Some(InputMix9)
    case "InputMix10" => Some(InputMix10)
    case "InputMix11" => Some(InputMix11)
    case "InputMix12" => Some(InputMix12)
    case "InputMix13" => Some(InputMix13)
    case "InputMix14" => Some(InputMix14)
    case "InputMix15" => Some(InputMix15)
    case "InputMix16" => Some(InputMix16)
    case "InputPreview" => Some(InputPreview)
    case "InputPreviewMix2" => Some(InputPreviewMix2)
    case "InputPreviewMix3" => Some(InputPreviewMix3)
    case "InputPreviewMix4" => Some(InputPreviewMix4)
    case "InputPreviewMix5" => Some(InputPreviewMix5)
    case "InputPreviewMix6" => Some(InputPreviewMix6)
    case "InputPreviewMix7" => Some(InputPreviewMix7)
    case "InputPreviewMix8" => Some(InputPreviewMix8)
    case "InputPreviewMix9" => Some(InputPreviewMix9)
    case "InputPreviewMix10" => Some(InputPreviewMix10)
    case "InputPreviewMix11" => Some(InputPreviewMix11)
    case "InputPreviewMix12" => Some(InputPreviewMix12)
    case "InputPreviewMix13" => Some(InputPreviewMix13)
    case "InputPreviewMix14" => Some(InputPreviewMix14)
    case "InputPreviewMix15" => Some(InputPreviewMix15)
    case "InputPreviewMix16" => Some(InputPreviewMix16)
    case "InputPlaying" => Some(InputPlaying)
    case "InputAudio" => Some(InputAudio)
    case "InputSolo" => Some(InputSolo)
    case "InputBusAAudio" => Some(InputBusAAudio)
    case "InputBusBAudio" => Some(InputBusBAudio)
    case "InputBusCAudio" => Some(InputBusCAudio)
    case "InputBusDAudio" => Some(InputBusDAudio)
    case "InputBusEAudio" => Some(InputBusEAudio)
    case "InputBusFAudio" => Some(InputBusFAudio)
    case "InputBusGAudio" => Some(InputBusGAudio)
    case "InputMasterAudio" => Some(InputMasterAudio)
    case "Overlay1" => Some(Overlay1)
    case "Overlay2" => Some(Overlay2)
    case "Overlay3" => Some(Overlay3)
    case "Overlay4" => Some(Overlay4)
    case _ => None
  }

  function InputFloatKeyOf(s: string): Option<InputFloatKey> {
    match s
    case "InputVolume" => Some(InputVolume)
    case "InputHeadphones" => Some(InputHeadphones)
    case _ => None
  }

  function SingleFloatKeyOf(s: string): Option<SingleFloatKey> {
    match s
    case "MasterVolume" => Some(MasterVolume)
    case "MasterHeadphones" => Some(MasterHeadphones)
    case "BusAVolume" => Some(BusAVolume)
    case "BusBVolume" => Some(BusBVolume)
    case "BusCVolume" => Some(BusCVolume)
    case "BusDVolume" => Some(BusDVolume)
    case "BusEVolume" => Some(BusEVolume)
    case "BusFVolume" => Some(BusFVolume)
    case "BusGVolume" => Some(BusGVolume)
    case _ => None
  }

  function SingleBoolKeyOf(s: string): Option<SingleBoolKey> {
    match s
    case "MasterAudio" => Some(MasterAudio)
    case "BusAAudio" => Some(BusAAudio)
    case "BusBAudio" => Some(BusBAudio)
    case "BusCAudio" => Some(BusCAudio)
    case "BusDAudio" => Some(BusDAudio)
    case "BusEAudio" => Some(BusEAudio)
    case "BusFAudio" => Some(BusFAudio)
    case "BusGAudio" => Some(BusGAudio)
    case "BusASolo" => Some(BusASolo)
    case "BusBSolo" => Some(BusBSolo)
    case "BusCSolo" => Some(BusCSolo)
    case "BusDSolo" => Some(BusDSolo)
    case "BusESolo" => Some(BusESolo)
    case "BusFSolo" => Some(BusFSolo)
    case "BusGSolo" => Some(BusGSolo)
    case "FadeToBlack" => Some(FadeToBlack)
    case "Recording" => Some(Recording)
    case "Streaming" => Some(Streaming)
    case "External" => Some(External)
    case "Fullscreen" => Some(Fullscreen)
    case "ReplayPlaying" => Some(ReplayPlaying)
    case _ => None
  }

  /** The keyword groups of the outer `match` in `try_from`. */
  predicate InInputBoolGroup(s: string) {
    match s
    case "Input" | "InputMix2" | "InputMix3" | "InputMix4" | "InputMix5" | "InputMix6"
      | "InputMix7" | "InputMix8" | "InputMix9" | "InputMix10" | "InputMix11" | "InputMix12"
      | "InputMix13" | "InputMix14" | "InputMix15" | "InputMix16" | "InputPreview"
      | "InputPreviewMix2" | "InputPreviewMix3" | "InputPreviewMix4" | "InputPreviewMix5"
      | "InputPreviewMix6" | "InputPreviewMix7" | "InputPreviewMix8" | "InputPreviewMix9"
      | "InputPreviewMix10" | "InputPreviewMix11" | "InputPreviewMix12" | "InputPreviewMix13"
      | "InputPreviewMix14" | "InputPreviewMix15" | "InputPreviewMix16" | "InputPlaying"
      | "InputAudio" | "InputSolo" | "InputBusAAudio" | "InputBusBAudio" | "InputBusCAudio"
      | "InputBusDAudio" | "InputBusEAudio" | "InputBusFAudio" | "InputBusGAudio"
      | "InputMasterAudio" | "Overlay1" | "Overlay2" | "Overlay3" | "Overlay4" => true
    case _ => false
  }

  predicate InInputFloatGroup(s: string) {
    match s
    case "InputVolume" | "InputHeadphones" => true
    case _ => false
  }

  predicate InSingleFloatGroup(s: string) {
    match s
    case "MasterVolume" | "MasterHeadphones" | "BusAVolume" | "BusBVolume" | "BusCVolume"
      | "BusDVolume" | "BusEVolume" | "BusFVolume" | "BusGVolume" => true
    case _ => false
  }

  predicate InSingleBoolGroup(s: string) {
    match s
    case "MasterAudio" | "BusAAudio" | "BusBAudio" | "BusCAudio" | "BusDAudio" | "BusEAudio"
      | "BusFAudio" | "BusGAudio" | "BusASolo" | "BusBSolo" | "BusCSolo" | "BusDSolo"
      | "BusESolo" | "BusFSolo" | "BusGSolo" | "FadeToBlack" | "Recording" | "Streaming"
      | "External" | "Fullscreen" | "ReplayPlaying" => true
    case _ => false
  }

  predicate IsKeyword(s: string) {
    InInputBoolGroup(s) || InInputFloatGroup(s) || InSingleFloatGroup(s) || InSingleBoolGroup(s)
  }

  /** Each shape's keyword group lists exactly the keywords its helper
      matches, and a matched keyword names the variant it builds. */
  lemma InputBoolKeywords(s: string)
    ensures InInputBoolGroup(s) <==> InputBoolKeyOf(s).Some?
    ensures InputBoolKeyOf(s).Some? ==> InputBoolName(InputBoolKeyOf(s).value) == s
  {
    InputBoolGroupKeyed(s);
    InputBoolKeyedGroup(s);
    InputBoolKeyedName(s);
  }

  lemma InputBoolGroupKeyed(s: string)
    ensures InInputBoolGroup(s) ==> InputBoolKeyOf(s).Some?
  {
  }

  lemma InputBoolKeyedGroup(s: string)
    ensures InputBoolKeyOf(s).Some? ==> InInputBoolGroup(s)
  {
  }

  lemma InputBoolKeyedName(s: string)
    ensures InputBoolKeyOf(s).Some? ==> InputBoolName(InputBoolKeyOf(s).value) == s
  {
  }

  lemma InputFloatKeywords(s: string)
    ensures InInputFloatGroup(s) <==> InputFloatKeyOf(s).Some?
    ensures InputFloatKeyOf(s).Some? ==> InputFloatName(InputFloatKeyOf(s).value) == s
  {
  }

  lemma SingleFloatKeywords(s: string)
    ensures InSingleFloatGroup(s) <==> SingleFloatKeyOf(s).Some?
    ensures SingleFloatKeyOf(s).Some? ==> SingleFloatName(SingleFloatKeyOf(s).value) == s
  {
  }

  lemma SingleBoolKeywords(s: string)
    ensures InSingleBoolGroup(s) <==> SingleBoolKeyOf(s).Some?
    ensures SingleBoolKeyOf(s).Some? ==> SingleBoolName(SingleBoolKeyOf(s).value) == s
  {
  }

  /** Runs of `(InputNumber, bool)` variants, in declaration order. */
  predicate IsProgramMixKey(k: InputBoolKey) {
    k.Input? || k.InputMix2? || k.InputMix3? || k.InputMix4? || k.InputMix5? || k.InputMix6? ||
    k.InputMix7? || k.InputMix8? || k.InputMix9? || k.InputMix10? || k.InputMix11? ||
    k.InputMix12? || k.InputMix13? || k.InputMix14? || k.InputMix15? || k.InputMix16?
  }

  predicate IsPreviewMixKey(k: InputBoolKey) {
    k.InputPreview? || k.InputPreviewMix2? || k.InputPreviewMix3? || k.InputPreviewMix4? ||
    k.InputPreviewMix5? || k.InputPreviewMix6? || k.InputPreviewMix7? || k.InputPreviewMix8? ||
    k.InputPreviewMix9? || k.InputPreviewMix10? || k.InputPreviewMix11? ||
    k.InputPreviewMix12? || k.InputPreviewMix13? || k.InputPreviewMix14? ||
    k.InputPreviewMix15? || k.InputPreviewMix16?
  }

  predicate IsPlayingAudioKey(k: InputBoolKey) {
    k.InputPlaying? || k.InputAudio?
  }

  predicate IsSoloBusAKey(k: InputBoolKey) {
    k.InputSolo? || k.InputBusAAudio?
  }

  predicate IsBusBCKey(k: InputBoolKey) {
    k.InputBusBAudio? || k.InputBusCAudio?
  }

  predicate IsBusDEKey(k: InputBoolKey) {
    k.InputBusDAudio? || k.InputBusEAudio?
  }

  predicate IsBusFGKey(k: InputBoolKey) {
    k.InputBusFAudio? || k.InputBusGAudio?
  }

  predicate IsMasterOverlay1Key(k: InputBoolKey) {
    k.InputMasterAudio? || k.Overlay1?
  }

  predicate IsOverlay23Key(k: InputBoolKey) {
    k.Overlay2? || k.Overlay3?
  }

  /** Every variant's name is matched back to that variant, a few
      variants at a time, which keeps each proof small. */
  lemma InputBoolNameKey(k: InputBoolKey)
    ensures InputBoolKeyOf(InputBoolName(k)) == Some(k)
  {
    if IsProgramMixKey(k) {
      ProgramMixNameKey(k);
    } else if IsPreviewMixKey(k) {
      PreviewMixNameKey(k);
    } else if IsPlayingAudioKey(k) {
      PlayingAudioNameKey(k);
    } else if IsSoloBusAKey(k) {
      SoloBusANameKey(k);
    } else if IsBusBCKey(k) {
      BusBCNameKey(k);
    } else if IsBusDEKey(k) {
      BusDENameKey(k);
    } else if IsBusFGKey(k) {
      BusFGNameKey(k);
    } else if IsMasterOverlay1Key(k) {
      MasterOverlay1NameKey(k);
    } else if IsOverlay23Key(k) {
      Overlay23NameKey(k);
    } else {
      Overlay4NameKey(k);
    }
  }

  lemma ProgramMixNameKey(k: InputBoolKey)
    requires IsProgramMixKey(k)
    ensures InputBoolKeyOf(InputBoolName(k)) == Some(k)
  {
  }

  lemma PreviewMixNameKey(k: InputBoolKey)
    requires IsPreviewMixKey(k)
    ensures InputBoolKeyOf(InputBoolName(k)) == Some(k)
  {
  }

  lemma PlayingAudioNameKey(k: InputBoolKey)
    requires IsPlayingAudioKey(k)
    ensures InputBoolKeyOf(InputBoolName(k)) == Some(k)
  {
  }

  lemma SoloBusANameKey(k: InputBoolKey)
    requires IsSoloBusAKey(k)
    ensures InputBoolKeyOf(InputBoolName(k)) == Some(k)
  {
  }

  lemma BusBCNameKey(k: InputBoolKey)
    requires IsBusBCKey(k)
    ensures InputBoolKeyOf(InputBoolName(k)) == Some(k)
  {
  }

  lemma BusDENameKey(k: InputBoolKey)
    requires IsBusDEKey(k)
    ensures InputBoolKeyOf(InputBoolName(k)) == Some(k)
  {
  }

  lemma BusFGNameKey(k: InputBoolKey)
    requires IsBusFGKey(k)
    ensures InputBoolKeyOf(InputBoolName(k)) == Some(k)
  {
  }

  lemma MasterOverlay1NameKey(k: InputBoolKey)
    requires IsMasterOverlay1Key(k)
    ensures InputBoolKeyOf(InputBoolName(k)) == Some(k)
  {
  }

  lemma Overlay23NameKey(k: InputBoolKey)
    requires IsOverlay23Key(k)
    ensures InputBoolKeyOf(InputBoolName(k)) == Some(k)
  {
  }

  lemma Overlay4NameKey(k: InputBoolKey)
    requires k.Overlay4?
    ensures InputBoolKeyOf(InputBoolName(k)) == Some(k)
  {
  }

  lemma KeyOfName(a: ActivatorsData)
    ensures a.InputBool? ==> InputBoolKeyOf(Name(a)) == Some(a.ibKey)
    ensures a.InputFloat? ==> InputFloatKeyOf(Name(a)) == Some(a.ifKey)
    ensures a.SingleFloat? ==> SingleFloatKeyOf(Name(a)) == Some(a.sfKey)
    ensures a.SingleBool? ==> SingleBoolKeyOf(Name(a)) == Some(a.sbKey)
  {
    if a.InputBool? {
      InputBoolNameKey(a.ibKey);
    }
  }

  /** No keyword belongs to two groups. */
  lemma GroupsDisjoint(s: string)
    ensures InInputBoolGroup(s) ==> !InInputFloatGroup(s) && !InSingleFloatGroup(s) && !InSingleBoolGroup(s)
    ensures InInputFloatGroup(s) ==> !InSingleFloatGroup(s) && !InSingleBoolGroup(s)
    ensures InSingleFloatGroup(s) ==> !InSingleBoolGroup(s)
  {
  }

}
