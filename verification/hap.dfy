/**
 * The parts of the HomeKit Accessory Protocol (HAP) that the gate accessory uses:
 * the numeric door-state encoding and the characteristics it publishes.
 */
module Hap {

  /** CurrentDoorState values, compared numerically by the accessory. */
  const OPEN := 0
  const CLOSED := 1
  const OPENING := 2
  const CLOSING := 3
  const STOPPED := 4

  /** TargetDoorState values: they share the numbers of OPEN and CLOSED. */
  const TARGET_OPEN := 0
  const TARGET_CLOSED := 1

  /** The characteristics the accessory sets on its services. */
  datatype Characteristic =
    | Name
    | CurrentDoorState
    | ObstructionDetected
    | Manufacturer
    | Model
    | SerialNumber
    | FirmwareRevision

  /** A characteristic value: the accessory publishes numbers and strings. */
  datatype Value = Num(n: int) | Text(s: string)
}
