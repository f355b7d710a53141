# DM163 LED driver and companion programs, modelled in Dafny

This project models the integer logic of a small embedded repository.

- **DM163 driver** (`Dm163.dfy`). This is the Zephyr driver for the DM163 constant-current LED driver. The chip holds two 24-entry banks:
  - 8 LEDs times red, green and blue channel bytes;
  - 6-bit brightness ("dot correction") entries.

  The driver checks the setters' arguments, updates the banks in place and then "flushes" a bank by bit-banging it on GPIO lines. Every `gpio_pin_set_dt` call is one `Write(pin, level)` event appended to the driver's `trace`. The pure functions `ChannelFlush` and `BrightnessFlush` give the exact event sequence of a flush, and the lemmas state the ordering properties:
  - entries go out in reverse index order, most significant bit first;
  - every bit is followed by a clock pulse;
  - the latch pulse follows the data;
  - the brightness bank is bracketed by the bank-select line;
  - a pending matrix row is turned off exactly once, right after channel 2.
- **Accounts** (`Account.dfy`). The password checker parses `login:password` strings, splitting them at the first colon.
- **Prefix grouping** (`Hibp.dfy`). Accounts are grouped by the first five hex digits of the SHA-1 digest of their password, as the "have I been pwned" range API needs. The digest function is a parameter.
- **Tilt to blink period** (`ComplementaryFilter.dfy`). The board tilt in whole degrees maps to an LED blink half-period. A new period goes to the LED thread only when it changed, through a one-slot message queue.
- **Spirit level** (`SpiritLevel.dfy`). The bubble's column is folded onto the 8 columns of the LED matrix, and the lit LED is moved in the 24-byte channel array.

`Common.dfy` holds `Option` and the C integer types `Byte` (`uint8_t`) and `U32` (`uint32_t`).

## Model

| member | source | states |
|---|---|---|
| Dm163.Driver.Init | dm163_example/dm163_module/zephyr/dm163.c:56-91 | The driver starts with every brightness entry at 0x3f and every channel at 0, with no row pending. It writes, in order: reset released, a full brightness flush, a full channel flush, then the enable line set when it is connected. |
| Dm163.Driver.SetPin | dm163_example/dm163_module/zephyr/dm163.c:78-212 | Every `gpio_pin_set_dt` call of the driver (reset at :78, enable at :87, the data and clock lines at :178-180, the row line at :192, the latch at :196-197 and :210-211, the bank select at :206 and :212) appends exactly one event to the trace and changes nothing else. |
| Dm163.Driver.TurnOffRow | dm163_example/dm163_module/zephyr/dm163.c:126-129 | The given row becomes the pending one, replacing any request not yet consumed; a null row (`None`) cancels a pending request. |
| Dm163.Driver.PulseData | dm163_example/dm163_module/zephyr/dm163.c:174-182 | The loop writes exactly the events of `PulseEvents(v, bits)`: bits `bits-1` down to 0, each on `sin` followed by `gck` 1 and `gck` 0. |
| Dm163.Driver.FlushChannels | dm163_example/dm163_module/zephyr/dm163.c:184-199 | The trace grows by exactly `ChannelFlush(channels, pending row)`. Afterwards no row is pending, and the arrays are untouched (they are outside the frame). |
| Dm163.Driver.FlushBrightness | dm163_example/dm163_module/zephyr/dm163.c:201-214 | The trace grows by exactly `BrightnessFlush(brightness)`. The pending row is neither read nor cleared. |
| Dm163.Driver.SetBrightness | dm163_example/dm163_module/zephyr/dm163.c:131-146 | When `led >= 8` it returns -EINVAL and changes nothing. Otherwise the LED's three brightness entries become `value*63/100`, all other entries keep their values, one brightness flush follows and 0 is returned. |
| Dm163.Driver.On | dm163_example/dm163_module/zephyr/dm163.c:148-159 | When `led >= 8` it returns -EINVAL and changes nothing. Otherwise the LED's three channels become 0xff, all others are unchanged, one channel flush follows and 0 is returned. |
| Dm163.Driver.Off | dm163_example/dm163_module/zephyr/dm163.c:161-172 | Same as `On`, with the LED's three channels set to 0x00. |
| Dm163.Driver.SetColor | dm163_example/dm163_module/zephyr/dm163.c:216-228 | When `led >= 8` or more than 3 colours are given, it returns -EINVAL with no change and no flush. Otherwise channel `3*led+i` takes colour `i` for the colours given and 0 for the rest, other channels are unchanged, and exactly one channel flush follows. |
| Dm163.Driver.WriteChannels | dm163_example/dm163_module/zephyr/dm163.c:230-245 | The bound check uses the 32-bit sum `(start+num) mod 2^32`; above 24 it returns -EINVAL with no change. Otherwise channels `start..start+num-1` take `buf` when the sum did not wrap (nothing is copied when it wrapped), all others are unchanged, and exactly one channel flush follows, even for `num == 0`. |
| Dm163.ScaleBrightness | dm163_example/dm163_module/zephyr/dm163.c:137-138 | The result is the floor of `value*63/100`. It is at most 63 whenever `value <= 100`. |
| Dm163.BitsFrom | dm163_example/dm163_module/zephyr/dm163.c:176-181 | One loop turn per bit number, three writes per turn. |
| Dm163.EntriesFrom | dm163_example/dm163_module/zephyr/dm163.c:189-190 | One block of `3*bits` writes per array entry. |
| Dm163.PulseEvents | dm163_example/dm163_module/zephyr/dm163.c:176-181 | What one `pulse_data(v, bits)` call writes: three writes per bit, `3*bits` in all. `PulseOrder` states their order and `ChannelByteSent` and `BrightnessBitsSent` what they carry. |
| Dm163.BitsOrder | dm163_example/dm163_module/zephyr/dm163.c:176-181 | Clock cycle `j` writes bit `hi-1-j` on `sin`, then `gck` 1, then `gck` 0: most significant bit first. |
| Dm163.PulseOrder | dm163_example/dm163_module/zephyr/dm163.c:174-182 | `pulse_data(v, bits)` emits exactly `bits` cycles. Cycle `j` is `(v >> (bits-1-j)) & 1` on `sin`, then `gck` 1, then `gck` 0. |
| Dm163.BitsValue | dm163_example/dm163_module/zephyr/dm163.c:176-178 | Reading back the `sin` levels of bits `hi-1..lo` gives a value below `2^(hi-lo)`. Together with `v >> hi`, it makes up `v >> lo`. |
| Dm163.ShrPastWidth | dm163_example/dm163_module/zephyr/dm163.c:177 | Shifting a value below `2^n` right by `k <= n` leaves a value below `2^(n-k)`. |
| Dm163.ChannelByteSent | dm163_example/dm163_module/zephyr/dm163.c:190 | Eight pulses carry the whole channel byte: the bits read back on `sin` equal `v`. |
| Dm163.BrightnessBitsSent | dm163_example/dm163_module/zephyr/dm163.c:208 | Six pulses carry only the low 6 bits of a brightness entry: the bits read back equal `v % 64`. |
| Dm163.BitsOnlyShiftLines | dm163_example/dm163_module/zephyr/dm163.c:178-180 | `pulse_data` writes only to `sin` and `gck`. |
| Dm163.EntriesSplit | dm163_example/dm163_module/zephyr/dm163.c:189-190 | A flush loop sends the entries above `j` first, then entry `j`, then the entries below it. |
| Dm163.EntriesOrder | dm163_example/dm163_module/zephyr/dm163.c:189-190 | Entry `j` occupies the `3*bits` writes that start after the `hi-1-j` blocks of the higher entries. |
| Dm163.EntriesOnlyShiftLines | dm163_example/dm163_module/zephyr/dm163.c:189-190 | The data part of a flush writes only to `sin` and `gck`. |
| Dm163.RowWritesAppend | dm163_example/dm163_module/zephyr/dm163.c:192 | The row-line writes of a concatenated trace are those of each part, in order. |
| Dm163.ChannelFlushRowWrites | dm163_example/dm163_module/zephyr/dm163.c:191-194 | A channel flush writes a row line only for a pending row, and then exactly once, setting that row to 0. |
| Dm163.BrightnessFlushRowWrites | dm163_example/dm163_module/zephyr/dm163.c:201-214 | A brightness flush never writes a row line. |
| Dm163.RowOffConsumedOnce | dm163_example/dm163_module/zephyr/dm163.c:191-194 | Over two consecutive channel flushes, a pending row is turned off once: the second flush finds the slot empty. |
| Dm163.ChannelFlush | dm163_example/dm163_module/zephyr/dm163.c:189-197 | The writes of one `flush_channels`: the entries 23 down to 2, the row-off write of a pending row, the entries 1 and 0, then the latch pulse. It has no contract of its own; `ChannelFlushLatched`, `ChannelFlushBlock`, `RowOffAfterIndexTwo` and `ChannelFlushRowWrites` state its properties. |
| Dm163.ChannelFlushLatched | dm163_example/dm163_module/zephyr/dm163.c:189-197 | A channel flush is 24 entries of 24 writes, plus the row-off write if one is pending, and it ends with `lat` 0 then `lat` 1. |
| Dm163.ChannelFlushBlock | dm163_example/dm163_module/zephyr/dm163.c:189-195 | Channel `j`'s eight cycles sit at `24*(23-j)`, shifted by the row-off write when `j < 2`, and they spell `channels[j]`. |
| Dm163.HighBlock | dm163_example/dm163_module/zephyr/dm163.c:189-190 | Channels 23 down to 2 come first, one 24-write block each. |
| Dm163.LowBlock | dm163_example/dm163_module/zephyr/dm163.c:189-195 | Channels 1 and 0 come after the row-off step. |
| Dm163.RowOffAfterIndexTwo | dm163_example/dm163_module/zephyr/dm163.c:189-195 | With a row pending, the write setting it to 0 comes immediately after channel 2's bits and immediately before channel 1's. |
| Dm163.NoRowOffWhenNonePending | dm163_example/dm163_module/zephyr/dm163.c:191 | With nothing pending, channel 1's bits follow channel 2's directly: no extra event. |
| Dm163.BrightnessFlush | dm163_example/dm163_module/zephyr/dm163.c:206-212 | The writes of one `flush_brightness`: 24 entries of 18 writes between `selbk` 0 first and `selbk` 1 last, 436 writes in all. |
| Dm163.BrightnessFlushBracket | dm163_example/dm163_module/zephyr/dm163.c:206-212 | A brightness flush writes `selbk` 0 first and ends with `lat` 0, `lat` 1, `selbk` 1. It writes no other `selbk` event, so the latch comes before the bank is switched back. |
| Dm163.BrightnessFlushBlock | dm163_example/dm163_module/zephyr/dm163.c:206-209 | Brightness entry `j`'s six cycles sit at `1 + 18*(23-j)` and carry `brightness[j] % 64`. |
| Accounts.New | pwdchk/src/account.rs:9-14 | The login and the password are stored verbatim. |
| Accounts.SplitAtFirstColon | pwdchk/src/account.rs:17 | The result is `None` exactly when there is no colon. Otherwise `before + ":" + after` is the input and `before` has no colon. |
| Accounts.FromString | pwdchk/src/account.rs:16-19 | The result is `None` (the `unwrap` panic) exactly when there is no colon. Otherwise `login + ":" + password` is the input, and the login is the colon-free text before the first colon. |
| Accounts.ColonSplitUnique | pwdchk/src/account.rs:17 | There is only one way to cut a string at a colon so that the left part has no colon. |
| Accounts.FromStringOfNew | pwdchk/src/account.rs:16-18 | For a colon-free login, `from_string(l + ":" + p)` is `new(l, p)`. |
| Hibp.Sha1 | pwdchk/src/hibp.rs:6-13 | The result is a 5-character prefix and a 35-character suffix that together make up the 40-digit upper-case digest. |
| Hibp.AllSha1 | pwdchk/src/hibp.rs:15-20 | One triple per account, in input order. Each holds that account and its own digest, split after the fifth digit. |
| Hibp.Insert | pwdchk/src/hibp.rs:28-31 | One loop step: the key set gains the prefix, the prefix's bucket gains the entry at its end (a fresh one-entry bucket when the key was absent), and every other bucket is unchanged. |
| Hibp.Group | pwdchk/src/hibp.rs:27-32 | The map after the loop has visited some entries: every visited prefix is a key and no bucket is empty. |
| Hibp.GroupIsMatching | pwdchk/src/hibp.rs:27-31 | After the insertion loop, a prefix has a bucket exactly when some entry has that prefix. The bucket is exactly those entries, in input order. |
| Hibp.MatchingNonEmpty | pwdchk/src/hibp.rs:27-31 | The entries with prefix `k` are non-empty exactly when some input has prefix `k`. |
| Hibp.MatchingContains | pwdchk/src/hibp.rs:27-31 | Every entry is among the entries of its own prefix. |
| Hibp.TotalSizeRemove | pwdchk/src/hibp.rs:27-31 | The total bucket size can be counted starting from any bucket. |
| Hibp.TotalSizeInsert | pwdchk/src/hibp.rs:29-31 | Both `and_modify(push)` and `or_insert(vec![..])` add exactly one entry. |
| Hibp.GroupSize | pwdchk/src/hibp.rs:27-31 | The bucket sizes add up to the number of entries inserted. |
| Hibp.ByPrefixKeys | pwdchk/src/hibp.rs:22-34 | The map's keys are exactly the digest prefixes of the accounts, and no bucket is empty. |
| Hibp.AccountInItsBucket | pwdchk/src/hibp.rs:22-34 | Every account appears, with its digest suffix, in the bucket of its digest prefix. |
| Hibp.BucketsInInputOrder | pwdchk/src/hibp.rs:27-31 | Each bucket lists its accounts in input order. |
| Hibp.ByPrefixSize | pwdchk/src/hibp.rs:22-34 | No account is lost or duplicated: the bucket lengths sum to the number of accounts. |
| Hibp.Sha1ByPrefix | pwdchk/src/hibp.rs:22-34 | The loop over the hashed accounts builds exactly `ByPrefix(hash, accounts)`, about which the lemmas above hold. |
| ComplementaryFilter.HalfPeriodFromTilt | zephyr_lab_part_1/src/complementary_filter.c:79-92 | Each band maps to its period, in both directions: below 5 (negative tilts included) gives VERY_SLOW, [5,30) SLOW, [30,55) REGULAR, [55,80) FAST, and 80 or more VERY_FAST. |
| ComplementaryFilter.HalfPeriodMonotone | zephyr_lab_part_1/src/blink_leds.h:9-13 | Given the enumeration values, a larger tilt never gives a longer half-period. |
| ComplementaryFilter.MessageQueue.constructor | zephyr_lab_part_1/src/complementary_filter.c:50-51 | The queue starts empty with the given positive capacity (`MSGQ_BUFFER_SIZE`, defined as 1 at complementary_filter.c:15). |
| ComplementaryFilter.MessageQueue.NumFree | zephyr_lab_part_1/src/complementary_filter.c:107 | The number of free slots is the capacity minus the messages held, so it is 0 exactly when the queue is full. |
| ComplementaryFilter.MessageQueue.Purge | zephyr_lab_part_1/src/complementary_filter.c:108 | Purging empties the queue. |
| ComplementaryFilter.MessageQueue.Put | zephyr_lab_part_1/src/complementary_filter.c:110 | A put without waiting appends the message exactly when there is room, and otherwise leaves the queue as it was. |
| ComplementaryFilter.AfterSend | zephyr_lab_part_1/src/complementary_filter.c:107-110 | The queue after `send_message`: a full queue holds one message afterwards, any other gains one, and the sent message is last. |
| ComplementaryFilter.SendKeepsNewest | zephyr_lab_part_1/src/complementary_filter.c:105-111 | After a send, the queue is within capacity and its last message is the one sent. With capacity `MSGQ_BUFFER_SIZE` = 1, it holds exactly that message. |
| ComplementaryFilter.PeriodNotifier.constructor | zephyr_lab_part_1/src/complementary_filter.c:95-96 | The previous period starts at VERY_SLOW_BLINK, the current one at 0, and the queue is empty. |
| ComplementaryFilter.PeriodNotifier.SendMessage | zephyr_lab_part_1/src/complementary_filter.c:105-111 | A full queue is purged before the put, so the queue then holds exactly the current period. |
| ComplementaryFilter.PeriodNotifier.UpdateMsgqIfNecessary | zephyr_lab_part_1/src/complementary_filter.c:94-103 | A message is sent exactly when the new period differs from the previous one, and the queue then holds only it; otherwise the queue is unchanged. Afterwards the previous period equals the new one, so a repeated call with the same value sends nothing. |
| ComplementaryFilter.PeriodNotifier.OnTilt | zephyr_lab_part_1/src/complementary_filter.c:74-76 | The period chosen for the tilt becomes both the current and the previous period, and it is sent only when it changed. |
| SpiritLevel.ApproximateOnLedMatrix | dm163_example/src/spirit_level.c:93-98 | A truncated value of 8 becomes 7 and any other value is kept, so inputs in [0,8] give a column in 0..7. |
| SpiritLevel.UpdateChannels | dm163_example/src/spirit_level.c:137-145 | The previous column's three channels become 0, and then the actual column's become 255; when the columns agree that LED ends at 255. All other channels are unchanged, and positions below 8 keep every write inside the array. If only the previous LED was lit before, only the actual one is lit after. |

## Left out

- Mutexes (`k_mutex_lock`/`k_mutex_unlock` around each flush). Each flush is one atomic method. Concurrency is not modelled.
- Device-tree and pin configuration: `CONFIGURE_PIN`, `device_is_ready`, the `-ENODEV` path of `dm163_init`, `k_usleep`, logging and the registration macros. `Dm163.Driver.Init` starts its trace at the release of reset and models the enable line only as "connected or not".
- `row_to_turn_off` is a single global shared by every DM163 instance in C. The model keeps it as a field of the one driver it models, so sharing between devices is not captured.
- GPIO row lines are modelled as `Line(id)` pins, assumed distinct from the driver's six lines. The `gpio_dt_spec` pointer identity is not modelled.
- Dm163.ScaleBrightness: the bound of 63 is stated only for `value <= 100`. Larger values store up to 160, of which a flush sends only the low 6 bits (`Dm163.BrightnessBitsSent`).
- Dm163.Driver.SetColor: the `num_colors` argument and the `color` pointer are modelled together as one sequence whose length is `num_colors`.
- Dm163.Driver.WriteChannels: `buf` is a sequence of exactly `num` bytes. Reading past the caller's buffer is not modelled.
- Floating-point code is not modelled:
  - `compute_board_attitude_with_filter` before the period lookup; `ComplementaryFilter.PeriodNotifier.OnTilt` takes the tilt already converted to whole degrees;
  - the velocity and position integration in `update_velocity` and `update_position_get_spirit_row`; `SpiritLevel.ApproximateOnLedMatrix` takes the value already truncated to `uint8_t`;
  - the other filter and tilt code.
- Sensor I/O, interrupt and work-queue setup, the blink loops, and thread and timer creation (`init_complementary_filter`, the display loop). The LED thread's `k_msgq_get` is not modelled, so the queue only shows what the filter side does.
- SHA-1 itself is a parameter `hash` from a password to a 40-digit upper-case hex digest. rayon's `par_iter().map().collect()` is the order-preserving map it produces.
- `pwdchk/src/main.rs` and `pwdchk/src/error.rs`: command-line plumbing and error conversions. The `FromStr` implementation that main.rs refers to is not part of this model.
- Hash-map iteration order: buckets are a Dafny `map`, which has no order, like `HashMap`.
