/** Fixed RAM layout of the VM on the Hack platform. */
module VMConstants {
  const RAMStackStart: nat := 256
  const RAMLocalSegmentStart: nat := 300
  const RAMArgumentSegmentStart: nat := 400
  const RAMThisSegmentStart: nat := 3000
  const RAMThatSegmentStart: nat := 3010
  const RAMPointerSegmentStart: nat := 3
  const RAMTempSegmentStart: nat := 5

  /** General purpose registers reserved for the translator. */
  const VM1: string := "R13"
  const VM2: string := "R14"
  const VM3: string := "R15"
}
