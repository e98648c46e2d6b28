/** The part of a printer's cached status the capability layer inspects: the AMS section. */
module Status {
  import opened Wrappers

  /** The AMS (automatic material system) section of a pushed status report. */
  datatype AmsSection = AmsSection(amsExistBits: Option<string>)

  /** A pushed status report (`PushStatus`), reduced to its optional AMS section. */
  datatype PushStatus = PushStatus(ams: Option<AmsSection>)

  /**
   * `has_ams`: reading the cached status may fail, and the failure is passed on (`?`);
   * otherwise the answer is false when there is no status, no AMS section or no
   * `ams_exist_bits`, and true exactly when the bits are any string other than "0".
   */
  function HasAms<E>(status: Result<Option<PushStatus>, E>): (r: Result<bool, E>)
    ensures r.Failure? <==> status.Failure?
    ensures status.Failure? ==> r.error == status.error
    ensures status == Success(None) ==> r == Success(false)
    ensures status.Success? && status.value.Some? && status.value.value.ams.None?
            ==> r == Success(false)
    ensures status.Success? && status.value.Some? && status.value.value.ams.Some?
            && status.value.value.ams.value.amsExistBits.None?
            ==> r == Success(false)
    ensures status.Success? && status.value.Some? && status.value.value.ams.Some?
            && status.value.value.ams.value.amsExistBits.Some?
            ==> r == Success(status.value.value.ams.value.amsExistBits.value != "0")
  {
    match status
    case Failure(e) => Failure(e)
    case Success(None) => Success(false)
    case Success(Some(s)) =>
      match s.ams
      case None => Success(false)
      case Some(ams) =>
        match ams.amsExistBits
        case None => Success(false)
        case Some(bits) => Success(bits != "0")
  }

  /** The flag is true only when a status reports AMS bits, and those bits are not "0". */
  lemma HasAmsOnlyWithBits<E>(status: Result<Option<PushStatus>, E>)
    ensures HasAms(status) == Success(true) <==>
            exists bits :: status == Success(Some(PushStatus(Some(AmsSection(Some(bits))))))
                           && bits != "0"
  {
    if HasAms(status) == Success(true) {
      var bits := status.value.value.ams.value.amsExistBits.value;
      assert status == Success(Some(PushStatus(Some(AmsSection(Some(bits))))));
    }
  }
}
