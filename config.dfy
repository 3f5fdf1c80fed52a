/** The start-up guards on the environment: AW_SERIAL, VM_INTERVAL_S and AW_TYPE. */
module Config {
  import opened Python

  /** The AW_SERIAL guards: missing, shorter than 3, not all digits or not 10 long each exit with code 1. */
  function ValidateSerial(awSerial: Option<string>): (r: Result<string>)
    ensures r.Ok? <==> awSerial.Some? && |awSerial.value| == 10 && AllDigits(awSerial.value)
    ensures r.Ok? ==> r.value == awSerial.value
    ensures r.Err? ==> r.fault == Exit(1)
  {
    if awSerial.None? then Err(Exit(1))
    else if |awSerial.value| < 3 then Err(Exit(1))
    else if !IsDigit(awSerial.value) || |awSerial.value| != 10 then Err(Exit(1))
    else Ok(awSerial.value)
  }

  /** The interval used when VM_INTERVAL_S is unset, and the least one accepted. */
  const DefaultIntervalText := "300"
  const MinInterval: nat := 30

  lemma DefaultIntervalValue()
    ensures IsDigit(DefaultIntervalText) && DecimalValue(DefaultIntervalText) == 300
  {
    assert DefaultIntervalText[..2] == "30" && "30"[..1] == "3" && "3"[..0] == "";
  }

  /** The VM_INTERVAL_S guards: unset means "300"; then it must be all digits, and at least 30. */
  function ValidateInterval(intervalS: Option<string>): (r: Result<nat>)
    ensures r.Ok? ==> r.value >= MinInterval
    ensures r.Err? ==> r.fault == Exit(1)
    ensures intervalS.None? ==> r == Ok(300)
    ensures intervalS.Some? ==>
              (r.Ok? <==> IsDigit(intervalS.value) && DecimalValue(intervalS.value) >= MinInterval)
    ensures intervalS.Some? && r.Ok? ==> r.value == DecimalValue(intervalS.value)
  {
    var text := if intervalS.None? then DefaultIntervalText else intervalS.value;
    DefaultIntervalValue();
    if !IsDigit(text) then Err(Exit(1))
    else
      var interval := DecimalValue(text);
      if interval < MinInterval then Err(Exit(1)) else Ok(interval)
  }

  /** Every interval of 30 seconds or more, written in decimal, is accepted as itself. */
  lemma IntervalRoundTrip(n: nat)
    ensures ValidateInterval(Some(Decimal(n))) == (if n >= MinInterval then Ok(n) else Err(Exit(1)))
  {
    DecimalRoundTrip(n);
  }

  /** Which device branch of the polling loop runs each cycle. */
  datatype Branch = WaveBranch | WavePlusBranch | NoBranch

  /**
   * The branch as the bridge selects it: the fallback for an unrecognised AW_TYPE assigns the
   * misspelt aw_TYPE, so aw_type keeps its value and only the exact texts select a branch.
   */
  function SelectBranch(awType: Option<string>): (b: Branch)
    ensures b == WaveBranch <==> awType == Some("WAVE")
    ensures b == WavePlusBranch <==> awType == Some("WAVEPLUS")
  {
    // The fallback at src/wave-mqtt-bridge.py:91 assigns a variable nothing reads.
    var awTYPE := if awType != Some("WAVE") && awType != Some("WAVEPLUS") then Some("WAVE") else None;
    if awType == Some("WAVE") then WaveBranch
    else if awType == Some("WAVEPLUS") then WavePlusBranch
    else NoBranch
  }

  /** An unset or unrecognised AW_TYPE is logged as defaulting to WAVE, yet no device branch runs. */
  lemma UnrecognisedTypeRunsNoBranch(awType: Option<string>)
    requires awType != Some("WAVE") && awType != Some("WAVEPLUS")
    ensures SelectBranch(awType) == NoBranch
  {
  }
}
