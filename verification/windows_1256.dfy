/**
 The windows-1256 single-byte index as emitted in `src/index/singlebyte/windows_1256.rs`:
 its three tables and the `forward` and `backward` that read them, which are
 the generic single-byte lookup with 5 trie bits.

 The tables are written down in rows of 32 entries (entry `i` is entry
 `i % 32` of row `i / 32`); FORWARD_TABLE, BACKWARD_TABLE_LOWER and
 BACKWARD_TABLE_UPPER are the rows concatenated. The same entries are also
 given as decision trees on the index (`ForwardEntry`, `LowerEntry`,
 `UpperEntry`), which the verifier evaluates cheaply; `EntriesAgree` proves
 the trees equal to the tables, and the properties of the lookup are then
 proved by computation on the trees.
 */
module Windows1256 {
  import opened Common
  import SingleByte

  /** FORWARD_TABLE (128 entries): entry `i` is the code point of byte `0x80 + i`. */
  const FORWARD_ROWS: seq<seq<int>> := [
    [8364, 1662, 8218, 402, 8222, 8230, 8224, 8225, 710, 8240, 1657, 8249, 338, 1670, 1688, 1672,
     1711, 8216, 8217, 8220, 8221, 8226, 8211, 8212, 1705, 8482, 1681, 8250, 339, 8204, 8205, 1722],
    [160, 1548, 162, 163, 164, 165, 166, 167, 168, 169, 1726, 171, 172, 173, 174, 175,
     176, 177, 178, 179, 180, 181, 182, 183, 184, 185, 1563, 187, 188, 189, 190, 1567],
    [1729, 1569, 1570, 1571, 1572, 1573, 1574, 1575, 1576, 1577, 1578, 1579, 1580, 1581, 1582, 1583,
     1584, 1585, 1586, 1587, 1588, 1589, 1590, 215, 1591, 1592, 1593, 1594, 1600, 1601, 1602, 1603],
    [224, 1604, 226, 1605, 1606, 1607, 1608, 231, 232, 233, 234, 235, 1609, 1610, 238, 239,
     1611, 1612, 1613, 1614, 244, 1615, 1616, 247, 1617, 249, 1618, 251, 252, 8206, 8207, 1746]
  ]

  /** BACKWARD_TABLE_LOWER (576 entries): bytes, 0 for "no byte". */
  const LOWER_ROWS: seq<seq<int>> := [
    [0, 0, 0, 0, 0, 0, 0, 0, 0, 0, 0, 0, 0, 0, 0, 0,
     0, 0, 0, 0, 0, 0, 0, 0, 0, 0, 0, 0, 0, 0, 0, 0],
    [160, 0, 162, 163, 164, 165, 166, 167, 168, 169, 0, 171, 172, 173, 174, 175,
     176, 177, 178, 179, 180, 181, 182, 183, 184, 185, 0, 187, 188, 189, 190, 0],
    [0, 0, 0, 0, 0, 0, 0, 0, 0, 0, 0, 0, 0, 0, 0, 0,
     0, 0, 0, 0, 0, 0, 0, 215, 0, 0, 0, 0, 0, 0, 0, 0],
    [224, 0, 226, 0, 0, 0, 0, 231, 232, 233, 234, 235, 0, 0, 238, 239,
     0, 0, 0, 0, 244, 0, 0, 247, 0, 249, 0, 251, 252, 0, 0, 0],
    [0, 0, 0, 0, 0, 0, 0, 0, 0, 0, 0, 0, 0, 0, 0, 0,
     0, 0, 140, 156, 0, 0, 0, 0, 0, 0, 0, 0, 0, 0, 0, 0],
    [0, 0, 0, 0, 0, 0, 0, 0, 0, 0, 0, 0, 0, 0, 0, 0,
     0, 0, 131, 0, 0, 0, 0, 0, 0, 0, 0, 0, 0, 0, 0, 0],
    [0, 0, 0, 0, 0, 0, 136, 0, 0, 0, 0, 0, 0, 0, 0, 0,
     0, 0, 0, 0, 0, 0, 0, 0, 0, 0, 0, 0, 0, 0, 0, 0],
    [0, 0, 0, 0, 0, 0, 0, 0, 0, 0, 0, 0, 161, 0, 0, 0,
     0, 0, 0, 0, 0, 0, 0, 0, 0, 0, 0, 186, 0, 0, 0, 191],
    [0, 193, 194, 195, 196, 197, 198, 199, 200, 201, 202, 203, 204, 205, 206, 207,
     208, 209, 210, 211, 212, 213, 214, 216, 217, 218, 219, 0, 0, 0, 0, 0],
    [220, 221, 222, 223, 225, 227, 228, 229, 230, 236, 237, 240, 241, 242, 243, 245,
     246, 248, 250, 0, 0, 0, 0, 0, 0, 0, 0, 0, 0, 0, 0, 0],
    [0, 0, 0, 0, 0, 0, 0, 0, 0, 0, 0, 0, 0, 0, 0, 0,
     0, 0, 0, 0, 0, 0, 0, 0, 0, 138, 0, 0, 0, 0, 129, 0],
    [0, 0, 0, 0, 0, 0, 141, 0, 143, 0, 0, 0, 0, 0, 0, 0,
     0, 154, 0, 0, 0, 0, 0, 0, 142, 0, 0, 0, 0, 0, 0, 0],
    [0, 0, 0, 0, 0, 0, 0, 0, 0, 152, 0, 0, 0, 0, 0, 144,
     0, 0, 0, 0, 0, 0, 0, 0, 0, 0, 159, 0, 0, 0, 170, 0],
    [0, 192, 0, 0, 0, 0, 0, 0, 0, 0, 0, 0, 0, 0, 0, 0,
     0, 0, 255, 0, 0, 0, 0, 0, 0, 0, 0, 0, 0, 0, 0, 0],
    [0, 0, 0, 0, 0, 0, 0, 0, 0, 0, 0, 0, 157, 158, 253, 254,
     0, 0, 0, 150, 151, 0, 0, 0, 145, 146, 130, 0, 147, 148, 132, 0],
    [134, 135, 149, 0, 0, 0, 133, 0, 0, 0, 0, 0, 0, 0, 0, 0,
     137, 0, 0, 0, 0, 0, 0, 0, 0, 139, 155, 0, 0, 0, 0, 0],
    [0, 0, 0, 0, 0, 0, 0, 0, 0, 0, 0, 0, 128, 0, 0, 0,
     0, 0, 0, 0, 0, 0, 0, 0, 0, 0, 0, 0, 0, 0, 0, 0],
    [0, 0, 153, 0, 0, 0, 0, 0, 0, 0, 0, 0, 0, 0, 0, 0,
     0, 0, 0, 0, 0, 0, 0, 0, 0, 0, 0, 0, 0, 0, 0, 0]
  ]

  /** BACKWARD_TABLE_UPPER (266 entries): block offsets into BACKWARD_TABLE_LOWER. */
  const UPPER_ROWS: seq<seq<int>> := [
    [0, 0, 0, 0, 0, 32, 64, 96, 0, 0, 128, 0, 160, 0, 0, 0,
     0, 0, 0, 0, 0, 0, 192, 0, 0, 0, 0, 0, 0, 0, 0, 0],
    [0, 0, 0, 0, 0, 0, 0, 0, 0, 0, 0, 0, 0, 0, 0, 0,
     224, 256, 288, 320, 352, 384, 416, 0, 0, 0, 0, 0, 0, 0, 0, 0],
    [0, 0, 0, 0, 0, 0, 0, 0, 0, 0, 0, 0, 0, 0, 0, 0,
     0, 0, 0, 0, 0, 0, 0, 0, 0, 0, 0, 0, 0, 0, 0, 0],
    [0, 0, 0, 0, 0, 0, 0, 0, 0, 0, 0, 0, 0, 0, 0, 0,
     0, 0, 0, 0, 0, 0, 0, 0, 0, 0, 0, 0, 0, 0, 0, 0],
    [0, 0, 0, 0, 0, 0, 0, 0, 0, 0, 0, 0, 0, 0, 0, 0,
     0, 0, 0, 0, 0, 0, 0, 0, 0, 0, 0, 0, 0, 0, 0, 0],
    [0, 0, 0, 0, 0, 0, 0, 0, 0, 0, 0, 0, 0, 0, 0, 0,
     0, 0, 0, 0, 0, 0, 0, 0, 0, 0, 0, 0, 0, 0, 0, 0],
    [0, 0, 0, 0, 0, 0, 0, 0, 0, 0, 0, 0, 0, 0, 0, 0,
     0, 0, 0, 0, 0, 0, 0, 0, 0, 0, 0, 0, 0, 0, 0, 0],
    [0, 0, 0, 0, 0, 0, 0, 0, 0, 0, 0, 0, 0, 0, 0, 0,
     0, 0, 0, 0, 0, 0, 0, 0, 0, 0, 0, 0, 0, 0, 0, 0],
    [448, 480, 0, 0, 0, 512, 0, 0, 0, 544]
  ]

  const FORWARD_TABLE: seq<int> := Flatten(FORWARD_ROWS)
  const BACKWARD_TABLE_LOWER: seq<int> := Flatten(LOWER_ROWS)
  const BACKWARD_TABLE_UPPER: seq<int> := Flatten(UPPER_ROWS)

  /** The emitted index: `backward` shifts by 5 and masks with 31. */
  function Tables(): SingleByte.Tables {
    SingleByte.Tables(FORWARD_TABLE, BACKWARD_TABLE_LOWER, BACKWARD_TABLE_UPPER, 5)
  }

  /** The largest code point of the index (U+2122, byte 0x99); UPPER has
      one entry per bucket up to it. */
  const MAX_CODE_POINT: int := 8482

  /** `forward(code: u8)`: `FORWARD_TABLE[code - 0x80]`; the byte must be at
      least 0x80, since `code - 0x80` underflows below it. */
  function Forward(code: int): (r: int)
    requires 0x80 <= code <= 0xFF
    ensures 0 < r <= MAX_CODE_POINT
  {
    EntriesAgree();
    ForwardEntries();
    SingleByte.Forward(Tables(), code)
  }

  /** `backward(code: u32)`: bucket `code >> 5` selects an upper entry when it
      is below 266, and offset 0 otherwise; the result is the LOWER entry at
      that offset plus `code & 31`. Every read is in bounds (`TablesSafe`). */
  function Backward(code: nat): int
  {
    TablesSafe();
    SingleByte.Backward(Tables(), code)
  }

  /** FORWARD_TABLE[i] as a decision tree on `i`. */
  function ForwardEntry(i: int): int
  {
    if i < 64 then
      if i < 32 then
        if i < 16 then
          if i < 8 then
            if i < 4 then
              if i < 2 then
                if i < 1 then
                  8364
                else
                  1662
              else
                if i < 3 then
                  8218
                else
                  402
            else
              if i < 6 then
                if i < 5 then
                  8222
                else
                  8230
              else
                if i < 7 then
                  8224
                else
                  8225
          else
            if i < 12 then
              if i < 10 then
                if i < 9 then
                  710
                else
                  8240
              else
                if i < 11 then
                  1657
                else
                  8249
            else
              if i < 14 then
                if i < 13 then
                  338
                else
                  1670
              else
                if i < 15 then
                  1688
                else
                  1672
        else
          if i < 24 then
            if i < 20 then
              if i < 18 then
                if i < 17 then
                  1711
                else
                  8216
              else
                if i < 19 then
                  8217
                else
                  8220
            else
              if i < 22 then
                if i < 21 then
                  8221
                else
                  8226
              else
                if i < 23 then
                  8211
                else
                  8212
          else
            if i < 28 then
              if i < 26 then
                if i < 25 then
                  1705
                else
                  8482
              else
                if i < 27 then
                  1681
                else
                  8250
            else
              if i < 30 then
                if i < 29 then
                  339
                else
                  8204
              else
                if i < 31 then
                  8205
                else
                  1722
      else
        if i < 48 then
          if i < 40 then
            if i < 36 then
              if i < 34 then
                if i < 33 then
                  160
                else
                  1548
              else
                if i < 35 then
                  162
                else
                  163
            else
              if i < 38 then
                if i < 37 then
                  164
                else
                  165
              else
                if i < 39 then
                  166
                else
                  167
          else
            if i < 44 then
              if i < 42 then
                if i < 41 then
                  168
                else
                  169
              else
                if i < 43 then
                  1726
                else
                  171
            else
              if i < 46 then
                if i < 45 then
                  172
                else
                  173
              else
                if i < 47 then
                  174
                else
                  175
        else
          if i < 56 then
            if i < 52 then
              if i < 50 then
                if i < 49 then
                  176
                else
                  177
              else
                if i < 51 then
                  178
                else
                  179
            else
              if i < 54 then
                if i < 53 then
                  180
                else
                  181
              else
                if i < 55 then
                  182
                else
                  183
          else
            if i < 60 then
              if i < 58 then
                if i < 57 then
                  184
                else
                  185
              else
                if i < 59 then
                  1563
                else
                  187
            else
              if i < 62 then
                if i < 61 then
                  188
                else
                  189
              else
                if i < 63 then
                  190
                else
                  1567
    else
      if i < 96 then
        if i < 80 then
          if i < 72 then
            if i < 68 then
              if i < 66 then
                if i < 65 then
                  1729
                else
                  1569
              else
                if i < 67 then
                  1570
                else
                  1571
            else
              if i < 70 then
                if i < 69 then
                  1572
                else
                  1573
              else
                if i < 71 then
                  1574
                else
                  1575
          else
            if i < 76 then
              if i < 74 then
                if i < 73 then
                  1576
                else
                  1577
              else
                if i < 75 then
                  1578
                else
                  1579
            else
              if i < 78 then
                if i < 77 then
                  1580
                else
                  1581
              else
                if i < 79 then
                  1582
                else
                  1583
        else
          if i < 88 then
            if i < 84 then
              if i < 82 then
                if i < 81 then
                  1584
                else
                  1585
              else
                if i < 83 then
                  1586
                else
                  1587
            else
              if i < 86 then
                if i < 85 then
                  1588
                else
                  1589
              else
                if i < 87 then
                  1590
                else
                  215
          else
            if i < 92 then
              if i < 90 then
                if i < 89 then
                  1591
                else
                  1592
              else
                if i < 91 then
                  1593
                else
                  1594
            else
              if i < 94 then
                if i < 93 then
                  1600
                else
                  1601
              else
                if i < 95 then
                  1602
                else
                  1603
      else
        if i < 112 then
          if i < 104 then
            if i < 100 then
              if i < 98 then
                if i < 97 then
                  224
                else
                  1604
              else
                if i < 99 then
                  226
                else
                  1605
            else
              if i < 102 then
                if i < 101 then
                  1606
                else
                  1607
              else
                if i < 103 then
                  1608
                else
                  231
          else
            if i < 108 then
              if i < 106 then
                if i < 105 then
                  232
                else
                  233
              else
                if i < 107 then
                  234
                else
                  235
            else
              if i < 110 then
                if i < 109 then
                  1609
                else
                  1610
              else
                if i < 111 then
                  238
                else
                  239
        else
          if i < 120 then
            if i < 116 then
              if i < 114 then
                if i < 113 then
                  1611
                else
                  1612
              else
                if i < 115 then
                  1613
                else
                  1614
            else
              if i < 118 then
                if i < 117 then
                  244
                else
                  1615
              else
                if i < 119 then
                  1616
                else
                  247
          else
            if i < 124 then
              if i < 122 then
                if i < 121 then
                  1617
                else
                  249
              else
                if i < 123 then
                  1618
                else
                  251
            else
              if i < 126 then
                if i < 125 then
                  252
                else
                  8206
              else
                if i < 127 then
                  8207
                else
                  1746
  }

  /** BACKWARD_TABLE_LOWER[p] as a decision tree on `p`. */
  function LowerEntry(p: int): int
  {
    if p < 288 then
      if p < 144 then
        if p < 72 then
          if p < 36 then
            if p < 18 then
              if p < 9 then
                if p < 4 then
                  if p < 2 then
                    if p < 1 then
                      0
                    else
                      0
                  else
                    if p < 3 then
                      0
                    else
                      0
                else
                  if p < 6 then
                    if p < 5 then
                      0
                    else
                      0
                  else
                    if p < 7 then
                      0
                    else
                      if p < 8 then
                        0
                      else
                        0
              else
                if p < 13 then
                  if p < 11 then
                    if p < 10 then
                      0
                    else
                      0
                  else
                    if p < 12 then
                      0
                    else
                      0
                else
                  if p < 15 then
                    if p < 14 then
                      0
                    else
                      0
                  else
                    if p < 16 then
                      0
                    else
                      if p < 17 then
                        0
                      else
                        0
            else
              if p < 27 then
                if p < 22 then
                  if p < 20 then
                    if p < 19 then
                      0
                    else
                      0
                  else
                    if p < 21 then
                      0
                    else
                      0
                else
                  if p < 24 then
                    if p < 23 then
                      0
                    else
                      0
                  else
                    if p < 25 then
                      0
                    else
                      if p < 26 then
                        0
                      else
                        0
              else
                if p < 31 then
                  if p < 29 then
                    if p < 28 then
                      0
                    else
                      0
                  else
                    if p < 30 then
                      0
                    else
                      0
                else
                  if p < 33 then
                    if p < 32 then
                      0
                    else
                      160
                  else
                    if p < 34 then
                      0
                    else
                      if p < 35 then
                        162
                      else
                        163
          else
            if p < 54 then
              if p < 45 then
                if p < 40 then
                  if p < 38 then
                    if p < 37 then
                      164
                    else
                      165
                  else
                    if p < 39 then
                      166
                    else
                      167
                else
                  if p < 42 then
                    if p < 41 then
                      168
                    else
                      169
                  else
                    if p < 43 then
                      0
                    else
                      if p < 44 then
                        171
                      else
                        172
              else
                if p < 49 then
                  if p < 47 then
                    if p < 46 then
                      173
                    else
                      174
                  else
                    if p < 48 then
                      175
                    else
                      176
                else
                  if p < 51 then
                    if p < 50 then
                      177
                    else
                      178
                  else
                    if p < 52 then
                      179
                    else
                      if p < 53 then
                        180
                      else
                        181
            else
              if p < 63 then
                if p < 58 then
                  if p < 56 then
                    if p < 55 then
                      182
                    else
                      183
                  else
                    if p < 57 then
                      184
                    else
                      185
                else
                  if p < 60 then
                    if p < 59 then
                      0
                    else
                      187
                  else
                    if p < 61 then
                      188
                    else
                      if p < 62 then
                        189
                      else
                        190
              else
                if p < 67 then
                  if p < 65 then
                    if p < 64 then
                      0
                    else
                      0
                  else
                    if p < 66 then
                      0
                    else
                      0
                else
                  if p < 69 then
                    if p < 68 then
                      0
                    else
                      0
                  else
                    if p < 70 then
                      0
                    else
                      if p < 71 then
                        0
                      else
                        0
        else
          if p < 108 then
            if p < 90 then
              if p < 81 then
                if p < 76 then
                  if p < 74 then
                    if p < 73 then
                      0
                    else
                      0
                  else
                    if p < 75 then
                      0
                    else
                      0
                else
                  if p < 78 then
                    if p < 77 then
                      0
                    else
                      0
                  else
                    if p < 79 then
                      0
                    else
                      if p < 80 then
                        0
                      else
                        0
              else
                if p < 85 then
                  if p < 83 then
                    if p < 82 then
                      0
                    else
                      0
                  else
                    if p < 84 then
                      0
                    else
                      0
                else
                  if p < 87 then
                    if p < 86 then
                      0
                    else
                      0
                  else
                    if p < 88 then
                      215
                    else
                      if p < 89 then
                        0
                      else
                        0
            else
              if p < 99 then
                if p < 94 then
                  if p < 92 then
                    if p < 91 then
                      0
                    else
                      0
                  else
                    if p < 93 then
                      0
                    else
                      0
                else
                  if p < 96 then
                    if p < 95 then
                      0
                    else
                      0
                  else
                    if p < 97 then
                      224
                    else
                      if p < 98 then
                        0
                      else
                        226
              else
                if p < 103 then
                  if p < 101 then
                    if p < 100 then
                      0
                    else
                      0
                  else
                    if p < 102 then
                      0
                    else
                      0
                else
                  if p < 105 then
                    if p < 104 then
                      231
                    else
                      232
                  else
                    if p < 106 then
                      233
                    else
                      if p < 107 then
                        234
                      else
                        235
          else
            if p < 126 then
              if p < 117 then
                if p < 112 then
                  if p < 110 then
                    if p < 109 then
                      0
                    else
                      0
                  else
                    if p < 111 then
                      238
                    else
                      239
                else
                  if p < 114 then
                    if p < 113 then
                      0
                    else
                      0
                  else
                    if p < 115 then
                      0
                    else
                      if p < 116 then
                        0
                      else
                        244
              else
                if p < 121 then
                  if p < 119 then
                    if p < 118 then
                      0
                    else
                      0
                  else
                    if p < 120 then
                      247
                    else
                      0
                else
                  if p < 123 then
                    if p < 122 then
                      249
                    else
                      0
                  else
                    if p < 124 then
                      251
                    else
                      if p < 125 then
                        252
                      else
                        0
            else
              if p < 135 then
                if p < 130 then
                  if p < 128 then
                    if p < 127 then
                      0
                    else
                      0
                  else
                    if p < 129 then
                      0
                    else
                      0
                else
                  if p < 132 then
                    if p < 131 then
                      0
                    else
                      0
                  else
                    if p < 133 then
                      0
                    else
                      if p < 134 then
                        0
                      else
                        0
              else
                if p < 139 then
                  if p < 137 then
                    if p < 136 then
                      0
                    else
                      0
                  else
                    if p < 138 then
                      0
                    else
                      0
                else
                  if p < 141 then
                    if p < 140 then
                      0
                    else
                      0
                  else
                    if p < 142 then
                      0
                    else
                      if p < 143 then
                        0
                      else
                        0
      else
        if p < 216 then
          if p < 180 then
            if p < 162 then
              if p < 153 then
                if p < 148 then
                  if p < 146 then
                    if p < 145 then
                      0
                    else
                      0
                  else
                    if p < 147 then
                      140
                    else
                      156
                else
                  if p < 150 then
                    if p < 149 then
                      0
                    else
                      0
                  else
                    if p < 151 then
                      0
                    else
                      if p < 152 then
                        0
                      else
                        0
              else
                if p < 157 then
                  if p < 155 then
                    if p < 154 then
                      0
                    else
                      0
                  else
                    if p < 156 then
                      0
                    else
                      0
                else
                  if p < 159 then
                    if p < 158 then
                      0
                    else
                      0
                  else
                    if p < 160 then
                      0
                    else
                      if p < 161 then
                        0
                      else
                        0
            else
              if p < 171 then
                if p < 166 then
                  if p < 164 then
                    if p < 163 then
                      0
                    else
                      0
                  else
                    if p < 165 then
                      0
                    else
                      0
                else
                  if p < 168 then
                    if p < 167 then
                      0
                    else
                      0
                  else
                    if p < 169 then
                      0
                    else
                      if p < 170 then
                        0
                      else
                        0
              else
                if p < 175 then
                  if p < 173 then
                    if p < 172 then
                      0
                    else
                      0
                  else
                    if p < 174 then
                      0
                    else
                      0
                else
                  if p < 177 then
                    if p < 176 then
                      0
                    else
                      0
                  else
                    if p < 178 then
                      0
                    else
                      if p < 179 then
                        131
                      else
                        0
          else
            if p < 198 then
              if p < 189 then
                if p < 184 then
                  if p < 182 then
                    if p < 181 then
                      0
                    else
                      0
                  else
                    if p < 183 then
                      0
                    else
                      0
                else
                  if p < 186 then
                    if p < 185 then
                      0
                    else
                      0
                  else
                    if p < 187 then
                      0
                    else
                      if p < 188 then
                        0
                      else
                        0
              else
                if p < 193 then
                  if p < 191 then
                    if p < 190 then
                      0
                    else
                      0
                  else
                    if p < 192 then
                      0
                    else
                      0
                else
                  if p < 195 then
                    if p < 194 then
                      0
                    else
                      0
                  else
                    if p < 196 then
                      0
                    else
                      if p < 197 then
                        0
                      else
                        0
            else
              if p < 207 then
                if p < 202 then
                  if p < 200 then
                    if p < 199 then
                      136
                    else
                      0
                  else
                    if p < 201 then
                      0
                    else
                      0
                else
                  if p < 204 then
                    if p < 203 then
                      0
                    else
                      0
                  else
                    if p < 205 then
                      0
                    else
                      if p < 206 then
                        0
                      else
                        0
              else
                if p < 211 then
                  if p < 209 then
                    if p < 208 then
                      0
                    else
                      0
                  else
                    if p < 210 then
                      0
                    else
                      0
                else
                  if p < 213 then
                    if p < 212 then
                      0
                    else
                      0
                  else
                    if p < 214 then
                      0
                    else
                      if p < 215 then
                        0
                      else
                        0
        else
          if p < 252 then
            if p < 234 then
              if p < 225 then
                if p < 220 then
                  if p < 218 then
                    if p < 217 then
                      0
                    else
                      0
                  else
                    if p < 219 then
                      0
                    else
                      0
                else
                  if p < 222 then
                    if p < 221 then
                      0
                    else
                      0
                  else
                    if p < 223 then
                      0
                    else
                      if p < 224 then
                        0
                      else
                        0
              else
                if p < 229 then
                  if p < 227 then
                    if p < 226 then
                      0
                    else
                      0
                  else
                    if p < 228 then
                      0
                    else
                      0
                else
                  if p < 231 then
                    if p < 230 then
                      0
                    else
                      0
                  else
                    if p < 232 then
                      0
                    else
                      if p < 233 then
                        0
                      else
                        0
            else
              if p < 243 then
                if p < 238 then
                  if p < 236 then
                    if p < 235 then
                      0
                    else
                      0
                  else
                    if p < 237 then
                      161
                    else
                      0
                else
                  if p < 240 then
                    if p < 239 then
                      0
                    else
                      0
                  else
                    if p < 241 then
                      0
                    else
                      if p < 242 then
                        0
                      else
                        0
              else
                if p < 247 then
                  if p < 245 then
                    if p < 244 then
                      0
                    else
                      0
                  else
                    if p < 246 then
                      0
                    else
                      0
                else
                  if p < 249 then
                    if p < 248 then
                      0
                    else
                      0
                  else
                    if p < 250 then
                      0
                    else
                      if p < 251 then
                        0
                      else
                        186
          else
            if p < 270 then
              if p < 261 then
                if p < 256 then
                  if p < 254 then
                    if p < 253 then
                      0
                    else
                      0
                  else
                    if p < 255 then
                      0
                    else
                      191
                else
                  if p < 258 then
                    if p < 257 then
                      0
                    else
                      193
                  else
                    if p < 259 then
                      194
                    else
                      if p < 260 then
                        195
                      else
                        196
              else
                if p < 265 then
                  if p < 263 then
                    if p < 262 then
                      197
                    else
                      198
                  else
                    if p < 264 then
                      199
                    else
                      200
                else
                  if p < 267 then
                    if p < 266 then
                      201
                    else
                      202
                  else
                    if p < 268 then
                      203
                    else
                      if p < 269 then
                        204
                      else
                        205
            else
              if p < 279 then
                if p < 274 then
                  if p < 272 then
                    if p < 271 then
                      206
                    else
                      207
                  else
                    if p < 273 then
                      208
                    else
                      209
                else
                  if p < 276 then
                    if p < 275 then
                      210
                    else
                      211
                  else
                    if p < 277 then
                      212
                    else
                      if p < 278 then
                        213
                      else
                        214
              else
                if p < 283 then
                  if p < 281 then
                    if p < 280 then
                      216
                    else
                      217
                  else
                    if p < 282 then
                      218
                    else
                      219
                else
                  if p < 285 then
                    if p < 284 then
                      0
                    else
                      0
                  else
                    if p < 286 then
                      0
                    else
                      if p < 287 then
                        0
                      else
                        0
    else
      if p < 432 then
        if p < 360 then
          if p < 324 then
            if p < 306 then
              if p < 297 then
                if p < 292 then
                  if p < 290 then
                    if p < 289 then
                      220
                    else
                      221
                  else
                    if p < 291 then
                      222
                    else
                      223
                else
                  if p < 294 then
                    if p < 293 then
                      225
                    else
                      227
                  else
                    if p < 295 then
                      228
                    else
                      if p < 296 then
                        229
                      else
                        230
              else
                if p < 301 then
                  if p < 299 then
                    if p < 298 then
                      236
                    else
                      237
                  else
                    if p < 300 then
                      240
                    else
                      241
                else
                  if p < 303 then
                    if p < 302 then
                      242
                    else
                      243
                  else
                    if p < 304 then
                      245
                    else
                      if p < 305 then
                        246
                      else
                        248
            else
              if p < 315 then
                if p < 310 then
                  if p < 308 then
                    if p < 307 then
                      250
                    else
                      0
                  else
                    if p < 309 then
                      0
                    else
                      0
                else
                  if p < 312 then
                    if p < 311 then
                      0
                    else
                      0
                  else
                    if p < 313 then
                      0
                    else
                      if p < 314 then
                        0
                      else
                        0
              else
                if p < 319 then
                  if p < 317 then
                    if p < 316 then
                      0
                    else
                      0
                  else
                    if p < 318 then
                      0
                    else
                      0
                else
                  if p < 321 then
                    if p < 320 then
                      0
                    else
                      0
                  else
                    if p < 322 then
                      0
                    else
                      if p < 323 then
                        0
                      else
                        0
          else
            if p < 342 then
              if p < 333 then
                if p < 328 then
                  if p < 326 then
                    if p < 325 then
                      0
                    else
                      0
                  else
                    if p < 327 then
                      0
                    else
                      0
                else
                  if p < 330 then
                    if p < 329 then
                      0
                    else
                      0
                  else
                    if p < 331 then
                      0
                    else
                      if p < 332 then
                        0
                      else
                        0
              else
                if p < 337 then
                  if p < 335 then
                    if p < 334 then
                      0
                    else
                      0
                  else
                    if p < 336 then
                      0
                    else
                      0
                else
                  if p < 339 then
                    if p < 338 then
                      0
                    else
                      0
                  else
                    if p < 340 then
                      0
                    else
                      if p < 341 then
                        0
                      else
                        0
            else
              if p < 351 then
                if p < 346 then
                  if p < 344 then
                    if p < 343 then
                      0
                    else
                      0
                  else
                    if p < 345 then
                      0
                    else
                      138
                else
                  if p < 348 then
                    if p < 347 then
                      0
                    else
                      0
                  else
                    if p < 349 then
                      0
                    else
                      if p < 350 then
                        0
                      else
                        129
              else
                if p < 355 then
                  if p < 353 then
                    if p < 352 then
                      0
                    else
                      0
                  else
                    if p < 354 then
                      0
                    else
                      0
                else
                  if p < 357 then
                    if p < 356 then
                      0
                    else
                      0
                  else
                    if p < 358 then
                      0
                    else
                      if p < 359 then
                        141
                      else
                        0
        else
          if p < 396 then
            if p < 378 then
              if p < 369 then
                if p < 364 then
                  if p < 362 then
                    if p < 361 then
                      143
                    else
                      0
                  else
                    if p < 363 then
                      0
                    else
                      0
                else
                  if p < 366 then
                    if p < 365 then
                      0
                    else
                      0
                  else
                    if p < 367 then
                      0
                    else
                      if p < 368 then
                        0
                      else
                        0
              else
                if p < 373 then
                  if p < 371 then
                    if p < 370 then
                      154
                    else
                      0
                  else
                    if p < 372 then
                      0
                    else
                      0
                else
                  if p < 375 then
                    if p < 374 then
                      0
                    else
                      0
                  else
                    if p < 376 then
                      0
                    else
                      if p < 377 then
                        142
                      else
                        0
            else
              if p < 387 then
                if p < 382 then
                  if p < 380 then
                    if p < 379 then
                      0
                    else
                      0
                  else
                    if p < 381 then
                      0
                    else
                      0
                else
                  if p < 384 then
                    if p < 383 then
                      0
                    else
                      0
                  else
                    if p < 385 then
                      0
                    else
                      if p < 386 then
                        0
                      else
                        0
              else
                if p < 391 then
                  if p < 389 then
                    if p < 388 then
                      0
                    else
                      0
                  else
                    if p < 390 then
                      0
                    else
                      0
                else
                  if p < 393 then
                    if p < 392 then
                      0
                    else
                      0
                  else
                    if p < 394 then
                      152
                    else
                      if p < 395 then
                        0
                      else
                        0
          else
            if p < 414 then
              if p < 405 then
                if p < 400 then
                  if p < 398 then
                    if p < 397 then
                      0
                    else
                      0
                  else
                    if p < 399 then
                      0
                    else
                      144
                else
                  if p < 402 then
                    if p < 401 then
                      0
                    else
                      0
                  else
                    if p < 403 then
                      0
                    else
                      if p < 404 then
                        0
                      else
                        0
              else
                if p < 409 then
                  if p < 407 then
                    if p < 406 then
                      0
                    else
                      0
                  else
                    if p < 408 then
                      0
                    else
                      0
                else
                  if p < 411 then
                    if p < 410 then
                      0
                    else
                      159
                  else
                    if p < 412 then
                      0
                    else
                      if p < 413 then
                        0
                      else
                        0
            else
              if p < 423 then
                if p < 418 then
                  if p < 416 then
                    if p < 415 then
                      170
                    else
                      0
                  else
                    if p < 417 then
                      0
                    else
                      192
                else
                  if p < 420 then
                    if p < 419 then
                      0
                    else
                      0
                  else
                    if p < 421 then
                      0
                    else
                      if p < 422 then
                        0
                      else
                        0
              else
                if p < 427 then
                  if p < 425 then
                    if p < 424 then
                      0
                    else
                      0
                  else
                    if p < 426 then
                      0
                    else
                      0
                else
                  if p < 429 then
                    if p < 428 then
                      0
                    else
                      0
                  else
                    if p < 430 then
                      0
                    else
                      if p < 431 then
                        0
                      else
                        0
      else
        if p < 504 then
          if p < 468 then
            if p < 450 then
              if p < 441 then
                if p < 436 then
                  if p < 434 then
                    if p < 433 then
                      0
                    else
                      0
                  else
                    if p < 435 then
                      255
                    else
                      0
                else
                  if p < 438 then
                    if p < 437 then
                      0
                    else
                      0
                  else
                    if p < 439 then
                      0
                    else
                      if p < 440 then
                        0
                      else
                        0
              else
                if p < 445 then
                  if p < 443 then
                    if p < 442 then
                      0
                    else
                      0
                  else
                    if p < 444 then
                      0
                    else
                      0
                else
                  if p < 447 then
                    if p < 446 then
                      0
                    else
                      0
                  else
                    if p < 448 then
                      0
                    else
                      if p < 449 then
                        0
                      else
                        0
            else
              if p < 459 then
                if p < 454 then
                  if p < 452 then
                    if p < 451 then
                      0
                    else
                      0
                  else
                    if p < 453 then
                      0
                    else
                      0
                else
                  if p < 456 then
                    if p < 455 then
                      0
                    else
                      0
                  else
                    if p < 457 then
                      0
                    else
                      if p < 458 then
                        0
                      else
                        0
              else
                if p < 463 then
                  if p < 461 then
                    if p < 460 then
                      0
                    else
                      157
                  else
                    if p < 462 then
                      158
                    else
                      253
                else
                  if p < 465 then
                    if p < 464 then
                      254
                    else
                      0
                  else
                    if p < 466 then
                      0
                    else
                      if p < 467 then
                        0
                      else
                        150
          else
            if p < 486 then
              if p < 477 then
                if p < 472 then
                  if p < 470 then
                    if p < 469 then
                      151
                    else
                      0
                  else
                    if p < 471 then
                      0
                    else
                      0
                else
                  if p < 474 then
                    if p < 473 then
                      145
                    else
                      146
                  else
                    if p < 475 then
                      130
                    else
                      if p < 476 then
                        0
                      else
                        147
              else
                if p < 481 then
                  if p < 479 then
                    if p < 478 then
                      148
                    else
                      132
                  else
                    if p < 480 then
                      0
                    else
                      134
                else
                  if p < 483 then
                    if p < 482 then
                      135
                    else
                      149
                  else
                    if p < 484 then
                      0
                    else
                      if p < 485 then
                        0
                      else
                        0
            else
              if p < 495 then
                if p < 490 then
                  if p < 488 then
                    if p < 487 then
                      133
                    else
                      0
                  else
                    if p < 489 then
                      0
                    else
                      0
                else
                  if p < 492 then
                    if p < 491 then
                      0
                    else
                      0
                  else
                    if p < 493 then
                      0
                    else
                      if p < 494 then
                        0
                      else
                        0
              else
                if p < 499 then
                  if p < 497 then
                    if p < 496 then
                      0
                    else
                      137
                  else
                    if p < 498 then
                      0
                    else
                      0
                else
                  if p < 501 then
                    if p < 500 then
                      0
                    else
                      0
                  else
                    if p < 502 then
                      0
                    else
                      if p < 503 then
                        0
                      else
                        0
        else
          if p < 540 then
            if p < 522 then
              if p < 513 then
                if p < 508 then
                  if p < 506 then
                    if p < 505 then
                      0
                    else
                      139
                  else
                    if p < 507 then
                      155
                    else
                      0
                else
                  if p < 510 then
                    if p < 509 then
                      0
                    else
                      0
                  else
                    if p < 511 then
                      0
                    else
                      if p < 512 then
                        0
                      else
                        0
              else
                if p < 517 then
                  if p < 515 then
                    if p < 514 then
                      0
                    else
                      0
                  else
                    if p < 516 then
                      0
                    else
                      0
                else
                  if p < 519 then
                    if p < 518 then
                      0
                    else
                      0
                  else
                    if p < 520 then
                      0
                    else
                      if p < 521 then
                        0
                      else
                        0
            else
              if p < 531 then
                if p < 526 then
                  if p < 524 then
                    if p < 523 then
                      0
                    else
                      0
                  else
                    if p < 525 then
                      128
                    else
                      0
                else
                  if p < 528 then
                    if p < 527 then
                      0
                    else
                      0
                  else
                    if p < 529 then
                      0
                    else
                      if p < 530 then
                        0
                      else
                        0
              else
                if p < 535 then
                  if p < 533 then
                    if p < 532 then
                      0
                    else
                      0
                  else
                    if p < 534 then
                      0
                    else
                      0
                else
                  if p < 537 then
                    if p < 536 then
                      0
                    else
                      0
                  else
                    if p < 538 then
                      0
                    else
                      if p < 539 then
                        0
                      else
                        0
          else
            if p < 558 then
              if p < 549 then
                if p < 544 then
                  if p < 542 then
                    if p < 541 then
                      0
                    else
                      0
                  else
                    if p < 543 then
                      0
                    else
                      0
                else
                  if p < 546 then
                    if p < 545 then
                      0
                    else
                      0
                  else
                    if p < 547 then
                      153
                    else
                      if p < 548 then
                        0
                      else
                        0
              else
                if p < 553 then
                  if p < 551 then
                    if p < 550 then
                      0
                    else
                      0
                  else
                    if p < 552 then
                      0
                    else
                      0
                else
                  if p < 555 then
                    if p < 554 then
                      0
                    else
                      0
                  else
                    if p < 556 then
                      0
                    else
                      if p < 557 then
                        0
                      else
                        0
            else
              if p < 567 then
                if p < 562 then
                  if p < 560 then
                    if p < 559 then
                      0
                    else
                      0
                  else
                    if p < 561 then
                      0
                    else
                      0
                else
                  if p < 564 then
                    if p < 563 then
                      0
                    else
                      0
                  else
                    if p < 565 then
                      0
                    else
                      if p < 566 then
                        0
                      else
                        0
              else
                if p < 571 then
                  if p < 569 then
                    if p < 568 then
                      0
                    else
                      0
                  else
                    if p < 570 then
                      0
                    else
                      0
                else
                  if p < 573 then
                    if p < 572 then
                      0
                    else
                      0
                  else
                    if p < 574 then
                      0
                    else
                      if p < 575 then
                        0
                      else
                        0
  }

  /** BACKWARD_TABLE_UPPER[k] as a decision tree on `k`. */
  function UpperEntry(k: int): int
  {
    if k < 133 then
      if k < 66 then
        if k < 33 then
          if k < 16 then
            if k < 8 then
              if k < 4 then
                if k < 2 then
                  if k < 1 then
                    0
                  else
                    0
                else
                  if k < 3 then
                    0
                  else
                    0
              else
                if k < 6 then
                  if k < 5 then
                    0
                  else
                    32
                else
                  if k < 7 then
                    64
                  else
                    96
            else
              if k < 12 then
                if k < 10 then
                  if k < 9 then
                    0
                  else
                    0
                else
                  if k < 11 then
                    128
                  else
                    0
              else
                if k < 14 then
                  if k < 13 then
                    160
                  else
                    0
                else
                  if k < 15 then
                    0
                  else
                    0
          else
            if k < 24 then
              if k < 20 then
                if k < 18 then
                  if k < 17 then
                    0
                  else
                    0
                else
                  if k < 19 then
                    0
                  else
                    0
              else
                if k < 22 then
                  if k < 21 then
                    0
                  else
                    0
                else
                  if k < 23 then
                    192
                  else
                    0
            else
              if k < 28 then
                if k < 26 then
                  if k < 25 then
                    0
                  else
                    0
                else
                  if k < 27 then
                    0
                  else
                    0
              else
                if k < 30 then
                  if k < 29 then
                    0
                  else
                    0
                else
                  if k < 31 then
                    0
                  else
                    if k < 32 then
                      0
                    else
                      0
        else
          if k < 49 then
            if k < 41 then
              if k < 37 then
                if k < 35 then
                  if k < 34 then
                    0
                  else
                    0
                else
                  if k < 36 then
                    0
                  else
                    0
              else
                if k < 39 then
                  if k < 38 then
                    0
                  else
                    0
                else
                  if k < 40 then
                    0
                  else
                    0
            else
              if k < 45 then
                if k < 43 then
                  if k < 42 then
                    0
                  else
                    0
                else
                  if k < 44 then
                    0
                  else
                    0
              else
                if k < 47 then
                  if k < 46 then
                    0
                  else
                    0
                else
                  if k < 48 then
                    0
                  else
                    224
          else
            if k < 57 then
              if k < 53 then
                if k < 51 then
                  if k < 50 then
                    256
                  else
                    288
                else
                  if k < 52 then
                    320
                  else
                    352
              else
                if k < 55 then
                  if k < 54 then
                    384
                  else
                    416
                else
                  if k < 56 then
                    0
                  else
                    0
            else
              if k < 61 then
                if k < 59 then
                  if k < 58 then
                    0
                  else
                    0
                else
                  if k < 60 then
                    0
                  else
                    0
              else
                if k < 63 then
                  if k < 62 then
                    0
                  else
                    0
                else
                  if k < 64 then
                    0
                  else
                    if k < 65 then
                      0
                    else
                      0
      else
        if k < 99 then
          if k < 82 then
            if k < 74 then
              if k < 70 then
                if k < 68 then
                  if k < 67 then
                    0
                  else
                    0
                else
                  if k < 69 then
                    0
                  else
                    0
              else
                if k < 72 then
                  if k < 71 then
                    0
                  else
                    0
                else
                  if k < 73 then
                    0
                  else
                    0
            else
              if k < 78 then
                if k < 76 then
                  if k < 75 then
                    0
                  else
                    0
                else
                  if k < 77 then
                    0
                  else
                    0
              else
                if k < 80 then
                  if k < 79 then
                    0
                  else
                    0
                else
                  if k < 81 then
                    0
                  else
                    0
          else
            if k < 90 then
              if k < 86 then
                if k < 84 then
                  if k < 83 then
                    0
                  else
                    0
                else
                  if k < 85 then
                    0
                  else
                    0
              else
                if k < 88 then
                  if k < 87 then
                    0
                  else
                    0
                else
                  if k < 89 then
                    0
                  else
                    0
            else
              if k < 94 then
                if k < 92 then
                  if k < 91 then
                    0
                  else
                    0
                else
                  if k < 93 then
                    0
                  else
                    0
              else
                if k < 96 then
                  if k < 95 then
                    0
                  else
                    0
                else
                  if k < 97 then
                    0
                  else
                    if k < 98 then
                      0
                    else
                      0
        else
          if k < 116 then
            if k < 107 then
              if k < 103 then
                if k < 101 then
                  if k < 100 then
                    0
                  else
                    0
                else
                  if k < 102 then
                    0
                  else
                    0
              else
                if k < 105 then
                  if k < 104 then
                    0
                  else
                    0
                else
                  if k < 106 then
                    0
                  else
                    0
            else
              if k < 111 then
                if k < 109 then
                  if k < 108 then
                    0
                  else
                    0
                else
                  if k < 110 then
                    0
                  else
                    0
              else
                if k < 113 then
                  if k < 112 then
                    0
                  else
                    0
                else
                  if k < 114 then
                    0
                  else
                    if k < 115 then
                      0
                    else
                      0
          else
            if k < 124 then
              if k < 120 then
                if k < 118 then
                  if k < 117 then
                    0
                  else
                    0
                else
                  if k < 119 then
                    0
                  else
                    0
              else
                if k < 122 then
                  if k < 121 then
                    0
                  else
                    0
                else
                  if k < 123 then
                    0
                  else
                    0
            else
              if k < 128 then
                if k < 126 then
                  if k < 125 then
                    0
                  else
                    0
                else
                  if k < 127 then
                    0
                  else
                    0
              else
                if k < 130 then
                  if k < 129 then
                    0
                  else
                    0
                else
                  if k < 131 then
                    0
                  else
                    if k < 132 then
                      0
                    else
                      0
    else
      if k < 199 then
        if k < 166 then
          if k < 149 then
            if k < 141 then
              if k < 137 then
                if k < 135 then
                  if k < 134 then
                    0
                  else
                    0
                else
                  if k < 136 then
                    0
                  else
                    0
              else
                if k < 139 then
                  if k < 138 then
                    0
                  else
                    0
                else
                  if k < 140 then
                    0
                  else
                    0
            else
              if k < 145 then
                if k < 143 then
                  if k < 142 then
                    0
                  else
                    0
                else
                  if k < 144 then
                    0
                  else
                    0
              else
                if k < 147 then
                  if k < 146 then
                    0
                  else
                    0
                else
                  if k < 148 then
                    0
                  else
                    0
          else
            if k < 157 then
              if k < 153 then
                if k < 151 then
                  if k < 150 then
                    0
                  else
                    0
                else
                  if k < 152 then
                    0
                  else
                    0
              else
                if k < 155 then
                  if k < 154 then
                    0
                  else
                    0
                else
                  if k < 156 then
                    0
                  else
                    0
            else
              if k < 161 then
                if k < 159 then
                  if k < 158 then
                    0
                  else
                    0
                else
                  if k < 160 then
                    0
                  else
                    0
              else
                if k < 163 then
                  if k < 162 then
                    0
                  else
                    0
                else
                  if k < 164 then
                    0
                  else
                    if k < 165 then
                      0
                    else
                      0
        else
          if k < 182 then
            if k < 174 then
              if k < 170 then
                if k < 168 then
                  if k < 167 then
                    0
                  else
                    0
                else
                  if k < 169 then
                    0
                  else
                    0
              else
                if k < 172 then
                  if k < 171 then
                    0
                  else
                    0
                else
                  if k < 173 then
                    0
                  else
                    0
            else
              if k < 178 then
                if k < 176 then
                  if k < 175 then
                    0
                  else
                    0
                else
                  if k < 177 then
                    0
                  else
                    0
              else
                if k < 180 then
                  if k < 179 then
                    0
                  else
                    0
                else
                  if k < 181 then
                    0
                  else
                    0
          else
            if k < 190 then
              if k < 186 then
                if k < 184 then
                  if k < 183 then
                    0
                  else
                    0
                else
                  if k < 185 then
                    0
                  else
                    0
              else
                if k < 188 then
                  if k < 187 then
                    0
                  else
                    0
                else
                  if k < 189 then
                    0
                  else
                    0
            else
              if k < 194 then
                if k < 192 then
                  if k < 191 then
                    0
                  else
                    0
                else
                  if k < 193 then
                    0
                  else
                    0
              else
                if k < 196 then
                  if k < 195 then
                    0
                  else
                    0
                else
                  if k < 197 then
                    0
                  else
                    if k < 198 then
                      0
                    else
                      0
      else
        if k < 232 then
          if k < 215 then
            if k < 207 then
              if k < 203 then
                if k < 201 then
                  if k < 200 then
                    0
                  else
                    0
                else
                  if k < 202 then
                    0
                  else
                    0
              else
                if k < 205 then
                  if k < 204 then
                    0
                  else
                    0
                else
                  if k < 206 then
                    0
                  else
                    0
            else
              if k < 211 then
                if k < 209 then
                  if k < 208 then
                    0
                  else
                    0
                else
                  if k < 210 then
                    0
                  else
                    0
              else
                if k < 213 then
                  if k < 212 then
                    0
                  else
                    0
                else
                  if k < 214 then
                    0
                  else
                    0
          else
            if k < 223 then
              if k < 219 then
                if k < 217 then
                  if k < 216 then
                    0
                  else
                    0
                else
                  if k < 218 then
                    0
                  else
                    0
              else
                if k < 221 then
                  if k < 220 then
                    0
                  else
                    0
                else
                  if k < 222 then
                    0
                  else
                    0
            else
              if k < 227 then
                if k < 225 then
                  if k < 224 then
                    0
                  else
                    0
                else
                  if k < 226 then
                    0
                  else
                    0
              else
                if k < 229 then
                  if k < 228 then
                    0
                  else
                    0
                else
                  if k < 230 then
                    0
                  else
                    if k < 231 then
                      0
                    else
                      0
        else
          if k < 249 then
            if k < 240 then
              if k < 236 then
                if k < 234 then
                  if k < 233 then
                    0
                  else
                    0
                else
                  if k < 235 then
                    0
                  else
                    0
              else
                if k < 238 then
                  if k < 237 then
                    0
                  else
                    0
                else
                  if k < 239 then
                    0
                  else
                    0
            else
              if k < 244 then
                if k < 242 then
                  if k < 241 then
                    0
                  else
                    0
                else
                  if k < 243 then
                    0
                  else
                    0
              else
                if k < 246 then
                  if k < 245 then
                    0
                  else
                    0
                else
                  if k < 247 then
                    0
                  else
                    if k < 248 then
                      0
                    else
                      0
          else
            if k < 257 then
              if k < 253 then
                if k < 251 then
                  if k < 250 then
                    0
                  else
                    0
                else
                  if k < 252 then
                    0
                  else
                    0
              else
                if k < 255 then
                  if k < 254 then
                    0
                  else
                    0
                else
                  if k < 256 then
                    0
                  else
                    448
            else
              if k < 261 then
                if k < 259 then
                  if k < 258 then
                    480
                  else
                    0
                else
                  if k < 260 then
                    0
                  else
                    0
              else
                if k < 263 then
                  if k < 262 then
                    512
                  else
                    0
                else
                  if k < 264 then
                    0
                  else
                    if k < 265 then
                      0
                    else
                      544
  }

  /** `forward` evaluated on the decision tree. */
  function ForwardEval(code: int): int {
    ForwardEntry(code - 0x80)
  }

  /** `backward` evaluated on the decision trees. */
  function BackwardEval(code: nat): int {
    var offset := code / 32;
    var base := if offset < 266 then UpperEntry(offset) else 0;
    LowerEntry(base + code % 32)
  }

  lemma Shapes()
    ensures Rows(FORWARD_ROWS, 128) && Rows(LOWER_ROWS, 576) && Rows(UPPER_ROWS, 266)
  {}

  lemma ForwardRow0()
    ensures |FORWARD_ROWS| > 0 && |FORWARD_ROWS[0]| == 32
    ensures forall j | 0 <= j < 32 :: FORWARD_ROWS[0][j] == ForwardEntry(0 + j)
  {}

  lemma ForwardRow1()
    ensures |FORWARD_ROWS| > 1 && |FORWARD_ROWS[1]| == 32
    ensures forall j | 0 <= j < 32 :: FORWARD_ROWS[1][j] == ForwardEntry(32 + j)
  {}

  lemma ForwardRow2()
    ensures |FORWARD_ROWS| > 2 && |FORWARD_ROWS[2]| == 32
    ensures forall j | 0 <= j < 32 :: FORWARD_ROWS[2][j] == ForwardEntry(64 + j)
  {}

  lemma ForwardRow3()
    ensures |FORWARD_ROWS| > 3 && |FORWARD_ROWS[3]| == 32
    ensures forall j | 0 <= j < 32 :: FORWARD_ROWS[3][j] == ForwardEntry(96 + j)
  {}

  lemma LowerRow0()
    ensures |LOWER_ROWS| > 0 && |LOWER_ROWS[0]| == 32
    ensures forall j | 0 <= j < 32 :: LOWER_ROWS[0][j] == LowerEntry(0 + j)
  {}

  lemma LowerRow1()
    ensures |LOWER_ROWS| > 1 && |LOWER_ROWS[1]| == 32
    ensures forall j | 0 <= j < 32 :: LOWER_ROWS[1][j] == LowerEntry(32 + j)
  {}

  lemma LowerRow2()
    ensures |LOWER_ROWS| > 2 && |LOWER_ROWS[2]| == 32
    ensures forall j | 0 <= j < 32 :: LOWER_ROWS[2][j] == LowerEntry(64 + j)
  {}

  lemma LowerRow3()
    ensures |LOWER_ROWS| > 3 && |LOWER_ROWS[3]| == 32
    ensures forall j | 0 <= j < 32 :: LOWER_ROWS[3][j] == LowerEntry(96 + j)
  {}

  lemma LowerRow4()
    ensures |LOWER_ROWS| > 4 && |LOWER_ROWS[4]| == 32
    ensures forall j | 0 <= j < 32 :: LOWER_ROWS[4][j] == LowerEntry(128 + j)
  {}

  lemma LowerRow5()
    ensures |LOWER_ROWS| > 5 && |LOWER_ROWS[5]| == 32
    ensures forall j | 0 <= j < 32 :: LOWER_ROWS[5][j] == LowerEntry(160 + j)
  {}

  lemma LowerRow6()
    ensures |LOWER_ROWS| > 6 && |LOWER_ROWS[6]| == 32
    ensures forall j | 0 <= j < 32 :: LOWER_ROWS[6][j] == LowerEntry(192 + j)
  {}

  lemma LowerRow7()
    ensures |LOWER_ROWS| > 7 && |LOWER_ROWS[7]| == 32
    ensures forall j | 0 <= j < 32 :: LOWER_ROWS[7][j] == LowerEntry(224 + j)
  {}

  lemma LowerRow8()
    ensures |LOWER_ROWS| > 8 && |LOWER_ROWS[8]| == 32
    ensures forall j | 0 <= j < 32 :: LOWER_ROWS[8][j] == LowerEntry(256 + j)
  {}

  lemma LowerRow9()
    ensures |LOWER_ROWS| > 9 && |LOWER_ROWS[9]| == 32
    ensures forall j | 0 <= j < 32 :: LOWER_ROWS[9][j] == LowerEntry(288 + j)
  {}

  lemma LowerRow10()
    ensures |LOWER_ROWS| > 10 && |LOWER_ROWS[10]| == 32
    ensures forall j | 0 <= j < 32 :: LOWER_ROWS[10][j] == LowerEntry(320 + j)
  {}

  lemma LowerRow11()
    ensures |LOWER_ROWS| > 11 && |LOWER_ROWS[11]| == 32
    ensures forall j | 0 <= j < 32 :: LOWER_ROWS[11][j] == LowerEntry(352 + j)
  {}

  lemma LowerRow12()
    ensures |LOWER_ROWS| > 12 && |LOWER_ROWS[12]| == 32
    ensures forall j | 0 <= j < 32 :: LOWER_ROWS[12][j] == LowerEntry(384 + j)
  {}

  lemma LowerRow13()
    ensures |LOWER_ROWS| > 13 && |LOWER_ROWS[13]| == 32
    ensures forall j | 0 <= j < 32 :: LOWER_ROWS[13][j] == LowerEntry(416 + j)
  {}

  lemma LowerRow14()
    ensures |LOWER_ROWS| > 14 && |LOWER_ROWS[14]| == 32
    ensures forall j | 0 <= j < 32 :: LOWER_ROWS[14][j] == LowerEntry(448 + j)
  {}

  lemma LowerRow15()
    ensures |LOWER_ROWS| > 15 && |LOWER_ROWS[15]| == 32
    ensures forall j | 0 <= j < 32 :: LOWER_ROWS[15][j] == LowerEntry(480 + j)
  {}

  lemma LowerRow16()
    ensures |LOWER_ROWS| > 16 && |LOWER_ROWS[16]| == 32
    ensures forall j | 0 <= j < 32 :: LOWER_ROWS[16][j] == LowerEntry(512 + j)
  {}

  lemma LowerRow17()
    ensures |LOWER_ROWS| > 17 && |LOWER_ROWS[17]| == 32
    ensures forall j | 0 <= j < 32 :: LOWER_ROWS[17][j] == LowerEntry(544 + j)
  {}

  lemma UpperRow0()
    ensures |UPPER_ROWS| > 0 && |UPPER_ROWS[0]| == 32
    ensures forall j | 0 <= j < 32 :: UPPER_ROWS[0][j] == UpperEntry(0 + j)
  {}

  lemma UpperRow1()
    ensures |UPPER_ROWS| > 1 && |UPPER_ROWS[1]| == 32
    ensures forall j | 0 <= j < 32 :: UPPER_ROWS[1][j] == UpperEntry(32 + j)
  {}

  lemma UpperRow2()
    ensures |UPPER_ROWS| > 2 && |UPPER_ROWS[2]| == 32
    ensures forall j | 0 <= j < 32 :: UPPER_ROWS[2][j] == UpperEntry(64 + j)
  {}

  lemma UpperRow3()
    ensures |UPPER_ROWS| > 3 && |UPPER_ROWS[3]| == 32
    ensures forall j | 0 <= j < 32 :: UPPER_ROWS[3][j] == UpperEntry(96 + j)
  {}

  lemma UpperRow4()
    ensures |UPPER_ROWS| > 4 && |UPPER_ROWS[4]| == 32
    ensures forall j | 0 <= j < 32 :: UPPER_ROWS[4][j] == UpperEntry(128 + j)
  {}

  lemma UpperRow5()
    ensures |UPPER_ROWS| > 5 && |UPPER_ROWS[5]| == 32
    ensures forall j | 0 <= j < 32 :: UPPER_ROWS[5][j] == UpperEntry(160 + j)
  {}

  lemma UpperRow6()
    ensures |UPPER_ROWS| > 6 && |UPPER_ROWS[6]| == 32
    ensures forall j | 0 <= j < 32 :: UPPER_ROWS[6][j] == UpperEntry(192 + j)
  {}

  lemma UpperRow7()
    ensures |UPPER_ROWS| > 7 && |UPPER_ROWS[7]| == 32
    ensures forall j | 0 <= j < 32 :: UPPER_ROWS[7][j] == UpperEntry(224 + j)
  {}

  lemma UpperRow8()
    ensures |UPPER_ROWS| > 8 && |UPPER_ROWS[8]| == 10
    ensures forall j | 0 <= j < 10 :: UPPER_ROWS[8][j] == UpperEntry(256 + j)
  {}

  lemma ForwardAgrees()
    ensures |FORWARD_TABLE| == 128
    ensures forall i | 0 <= i < 128 :: FORWARD_TABLE[i] == ForwardEntry(i)
  {
    Shapes();
    RowsFlatten(FORWARD_ROWS, 128);
    forall i | 0 <= i < 128
      ensures FORWARD_TABLE[i] == ForwardEntry(i)
    {
      if i < 64 {
        if i < 32 {
          ForwardRow0();
        } else {
          ForwardRow1();
        }
      } else {
        if i < 96 {
          ForwardRow2();
        } else {
          ForwardRow3();
        }
      }
    }
  }

  lemma LowerAgrees()
    ensures |BACKWARD_TABLE_LOWER| == 576
    ensures forall p | 0 <= p < 576 :: BACKWARD_TABLE_LOWER[p] == LowerEntry(p)
  {
    Shapes();
    RowsFlatten(LOWER_ROWS, 576);
    forall p | 0 <= p < 576
      ensures BACKWARD_TABLE_LOWER[p] == LowerEntry(p)
    {
      if p < 288 {
        if p < 128 {
          if p < 64 {
            if p < 32 {
              LowerRow0();
            } else {
              LowerRow1();
            }
          } else {
            if p < 96 {
              LowerRow2();
            } else {
              LowerRow3();
            }
          }
        } else {
          if p < 192 {
            if p < 160 {
              LowerRow4();
            } else {
              LowerRow5();
            }
          } else {
            if p < 224 {
              LowerRow6();
            } else {
              if p < 256 {
                LowerRow7();
              } else {
                LowerRow8();
              }
            }
          }
        }
      } else {
        if p < 416 {
          if p < 352 {
            if p < 320 {
              LowerRow9();
            } else {
              LowerRow10();
            }
          } else {
            if p < 384 {
              LowerRow11();
            } else {
              LowerRow12();
            }
          }
        } else {
          if p < 480 {
            if p < 448 {
              LowerRow13();
            } else {
              LowerRow14();
            }
          } else {
            if p < 512 {
              LowerRow15();
            } else {
              if p < 544 {
                LowerRow16();
              } else {
                LowerRow17();
              }
            }
          }
        }
      }
    }
  }

  lemma UpperAgrees()
    ensures |BACKWARD_TABLE_UPPER| == 266
    ensures forall k | 0 <= k < 266 :: BACKWARD_TABLE_UPPER[k] == UpperEntry(k)
  {
    Shapes();
    RowsFlatten(UPPER_ROWS, 266);
    forall k | 0 <= k < 266
      ensures BACKWARD_TABLE_UPPER[k] == UpperEntry(k)
    {
      if k < 128 {
        if k < 64 {
          if k < 32 {
            UpperRow0();
          } else {
            UpperRow1();
          }
        } else {
          if k < 96 {
            UpperRow2();
          } else {
            UpperRow3();
          }
        }
      } else {
        if k < 192 {
          if k < 160 {
            UpperRow4();
          } else {
            UpperRow5();
          }
        } else {
          if k < 224 {
            UpperRow6();
          } else {
            if k < 256 {
              UpperRow7();
            } else {
              UpperRow8();
            }
          }
        }
      }
    }
  }

  /** The tables hold exactly the entries of the decision trees. */
  lemma EntriesAgree()
    ensures |FORWARD_TABLE| == 128 && |BACKWARD_TABLE_LOWER| == 576 && |BACKWARD_TABLE_UPPER| == 266
    ensures forall i | 0 <= i < 128 :: FORWARD_TABLE[i] == ForwardEntry(i)
    ensures forall p | 0 <= p < 576 :: BACKWARD_TABLE_LOWER[p] == LowerEntry(p)
    ensures forall k | 0 <= k < 266 :: BACKWARD_TABLE_UPPER[k] == UpperEntry(k)
  {
    ForwardAgrees();
    LowerAgrees();
    UpperAgrees();
  }

  /** Every FORWARD_TABLE entry is a code point other than `X`. */
  lemma ForwardEntries()
    ensures forall i | 0 <= i < 128 :: 0 < ForwardEntry(i) <= MAX_CODE_POINT
  {}

  /** Every upper entry is a block offset of at most 544, so the block it
      starts ends inside the 576 LOWER entries. */
  lemma UpperEntries()
    ensures forall k | 0 <= k < 266 :: 0 <= UpperEntry(k) <= 544
  {}

  /** LOWER starts with an all-zero block. */
  lemma LowerZeroBlock()
    ensures forall p | 0 <= p < 32 :: LowerEntry(p) == 0
  {}

  /** Memory safety of `forward` and `backward` for every input: the tables
      have their emitted lengths, and every upper entry plus 31 indexes
      inside LOWER. */
  lemma TablesSafe()
    ensures SingleByte.Safe(Tables())
    ensures |BACKWARD_TABLE_UPPER| == MAX_CODE_POINT / 32 + 1
    ensures |BACKWARD_TABLE_UPPER| == 266 && |BACKWARD_TABLE_LOWER| == 576
    ensures forall k | 0 <= k < 266 :: BACKWARD_TABLE_UPPER[k] + 31 < |BACKWARD_TABLE_LOWER|
  {
    EntriesAgree();
    ForwardEntries();
    UpperEntries();
    assert Pow2(5) == 32;
  }

  /** `forward` and `backward` are their decision-tree evaluations. */
  lemma EvalAgrees()
    ensures forall b | 0x80 <= b <= 0xFF :: Forward(b) == ForwardEval(b)
    ensures forall c: nat :: Backward(c) == BackwardEval(c)
  {
    EntriesAgree();
    TablesSafe();
    UpperEntries();
    forall c: nat
      ensures Backward(c) == BackwardEval(c)
    {
      ShrMaskUnique(c, 5, c / 32, c % 32);
    }
  }

  lemma RoundTripEval()
    ensures forall b | 0x80 <= b <= 0xFF :: BackwardEval(ForwardEval(b)) == b
  {}

  lemma ConverseEvalLow()
    ensures forall c | 0 <= c < 4256 ::
      BackwardEval(c) == 0 || (0x80 <= BackwardEval(c) <= 0xFF && ForwardEval(BackwardEval(c)) == c)
  {}

  lemma ConverseEvalHigh()
    ensures forall c | 4256 <= c < 8512 ::
      BackwardEval(c) == 0 || (0x80 <= BackwardEval(c) <= 0xFF && ForwardEval(BackwardEval(c)) == c)
  {}

  /** Empty buckets, and every bucket past UPPER, read the all-zero block of
      LOWER: `backward` answers 0 there. */
  lemma EmptyBuckets()
    ensures forall c: nat | c / 32 >= 266 :: Backward(c) == 0
    ensures forall c: nat | c / 32 < |BACKWARD_TABLE_UPPER| && BACKWARD_TABLE_UPPER[c / 32] == 0 :: Backward(c) == 0
  {
    EvalAgrees();
    EntriesAgree();
    LowerZeroBlock();
  }

  /** Round trip: `backward` finds every byte again from its code point. */
  lemma RoundTrip()
    ensures forall b | 0x80 <= b <= 0xFF :: Backward(Forward(b)) == b
  {
    EvalAgrees();
    RoundTripEval();
    ForwardEntries();
  }

  /** Converse: a non-zero answer of `backward` is a byte 0x80..0xFF whose
      code point is the query, so `backward` is non-zero on exactly the
      128 code points of FORWARD_TABLE. */
  lemma Converse()
    ensures forall c: nat :: Backward(c) == 0 || 0x80 <= Backward(c) <= 0xFF
    ensures forall c: nat | Backward(c) != 0 :: Forward(Backward(c)) == c
  {
    EvalAgrees();
    ConverseEvalLow();
    ConverseEvalHigh();
    LowerZeroBlock();
  }

  /** `forward` is injective: its 128 code points are distinct. */
  lemma ForwardInjective()
    ensures forall a, b | 0x80 <= a <= 0xFF && 0x80 <= b <= 0xFF :: Forward(a) == Forward(b) ==> a == b
  {
    RoundTrip();
  }

  /** `backward` is the single-byte encoder of the WHATWG Encoding Standard
      (section 9.2) over this index: 0x80 plus the pointer of the code point,
      0 when there is none. */
  lemma BackwardIsPointer()
    ensures forall c: nat :: Backward(c) == SingleByte.Pointer(FORWARD_TABLE, c)
  {
    var t := Tables();
    TablesSafe();
    assert SingleByte.RoundTrips(t) by {
      forall b | 0x80 <= b <= 0xFF
        ensures SingleByte.Backward(t, SingleByte.Forward(t, b)) == b
      {
        RoundTrip();
        assert Forward(b) == SingleByte.Forward(t, b);
      }
    }
    assert SingleByte.ConverseHolds(t) by {
      forall c: nat | SingleByte.Backward(t, c) != 0
        ensures c != X && 0x80 <= SingleByte.Backward(t, c) <= 0xFF
        ensures SingleByte.Forward(t, SingleByte.Backward(t, c)) == c
      {
        Converse();
        assert Backward(c) == SingleByte.Backward(t, c);
        assert Forward(Backward(c)) == c;
      }
    }
    SingleByte.BackwardIsPointer(t);
  }

  /** Worked lookups. */
  lemma LookupExamples()
    ensures Forward(0x80) == 8364
    ensures Forward(0x99) == MAX_CODE_POINT
    ensures Forward(0xA0) == 160
    ensures Backward(0x41) == 0
    ensures Backward(0xFFFF_FFFF) == 0
    ensures Backward(0xA0) == 0xA0
    ensures Backward(0x20AC) == 0x80
  {
    EvalAgrees();
  }

  /** Worked table entries. */
  lemma TableExamples()
    ensures |BACKWARD_TABLE_UPPER| == 266 && BACKWARD_TABLE_UPPER[261] == 512
  {
    EntriesAgree();
  }
}
