/** The integer part of the spirit-level demo: placing the bubble on the
    8-column LED matrix and moving the lit LED in the channel array. */
module SpiritLevel {
  import opened Common

  /** Columns of the LED matrix. */
  const NUM_COLUMNS: nat := 8
  /** Length of the channel array (`uint8_t channels[24]`). */
  const NUM_CHANNELS: nat := 3 * NUM_COLUMNS

  /** `approximate_on_led_matrix`, applied to the value already truncated
      to `uint8_t`: the right edge 8 is folded onto the last column 7. */
  function ApproximateOnLedMatrix(truncated: Byte): (column: Byte)
    ensures truncated <= NUM_COLUMNS ==> column < NUM_COLUMNS
    ensures truncated == NUM_COLUMNS ==> column == NUM_COLUMNS - 1
    ensures truncated != NUM_COLUMNS ==> column == truncated
    ensures column <= truncated
  {
    if truncated == 8 then 7 else truncated
  }

  /** Only the LED in `column` is lit: its three channels are at 255 and
      every other channel is 0. */
  ghost predicate OnlyLit(channels: seq<Byte>, column: nat)
  {
    |channels| == NUM_CHANNELS
    && forall j :: 0 <= j < NUM_CHANNELS ==> channels[j] == if j / 3 == column then 255 else 0
  }

  /** `update_channels`: the LED at the previous column is switched off,
      then the LED at the actual column switched fully on; when the two
      columns agree the LED ends lit. Nothing else changes. */
  method UpdateChannels(channels: array<Byte>, previous: Byte, actual: Byte)
    requires channels.Length == NUM_CHANNELS
    requires previous < NUM_COLUMNS && actual < NUM_COLUMNS
    modifies channels
    ensures forall j :: 0 <= j < NUM_CHANNELS ==>
      channels[j] == if j / 3 == actual then 255
                     else if j / 3 == previous then 0
                     else old(channels[j])
    ensures OnlyLit(old(channels[..]), previous) ==> OnlyLit(channels[..], actual)
  {
    channels[3 * previous] := 0;
    channels[3 * previous + 1] := 0;
    channels[3 * previous + 2] := 0;

    channels[3 * actual] := 255;
    channels[3 * actual + 1] := 255;
    channels[3 * actual + 2] := 255;
  }
}
