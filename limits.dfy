/**
 * The accepted ranges and their messages. The two page scripts and the two
 * servers each spell these out; the model names them once.
 */
module Limits {

  const YearMin := 1990
  const YearMax := 2025
  const KmMin := 0
  const KmMax := 500000
  const PowerMin := 30
  const PowerMax := 700
  const EngineMin := 500
  const EngineMax := 7000
  const TorqueMin := 50
  const TorqueMax := 800

  const YearMessage := "Year must be between 1990 and 2025"
  const KmMessage := "Kilometers driven must be between 0 and 500,000"
  const PowerMessage := "Max Power must be between 30 and 700 bhp"
  const EngineMessage := "Engine size must be between 500 and 7000 cc"
  const TorqueMessage := "Max Torque must be between 50 and 800 Nm"

  /** The reference year both servers subtract from the model year. */
  const CurrentYear := 2025

}
