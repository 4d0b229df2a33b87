/**
 The ISO-8859-16 single-byte index as emitted in `src/index/singlebyte/iso_8859_16.rs`:
 its three tables and the `forward` and `backward` that read them, which are
 the generic single-byte lookup with 5 trie bits.

 The tables are written down in rows of 32 entries (entry `i` is entry
 `i % 32` of row `i / 32`); FORWARD_TABLE, BACKWARD_TABLE_LOWER and
 BACKWARD_TABLE_UPPER are the rows concatenated. The same entries are also
 given as decision trees on the index (`ForwardEntry`, `LowerEntry`,
 `UpperEntry`), which the verifier evaluates cheaply; `EntriesAgree` proves
 the trees equal to the tables, and the properties of the lookup are then
 proved by computation on the trees.
 */
module Iso885916 {
  import opened Common
  import SingleByte

  /** FORWARD_TABLE (128 entries): entry `i` is the code point of byte `0x80 + i`. */
  const FORWARD_ROWS: seq<seq<int>> := [
    [128, 129, 130, 131, 132, 133, 134, 135, 136, 137, 138, 139, 140, 141, 142, 143,
     144, 145, 146, 147, 148, 149, 150, 151, 152, 153, 154, 155, 156, 157, 158, 159],
    [160, 260, 261, 321, 8364, 8222, 352, 167, 353, 169, 536, 171, 377, 173, 378, 379,
     176, 177, 268, 322, 381, 8221, 182, 183, 382, 269, 537, 187, 338, 339, 376, 380],
    [192, 193, 194, 258, 196, 262, 198, 199, 200, 201, 202, 203, 204, 205, 206, 207,
     272, 323, 210, 211, 212, 336, 214, 346, 368, 217, 218, 219, 220, 280, 538, 223],
    [224, 225, 226, 259, 228, 263, 230, 231, 232, 233, 234, 235, 236, 237, 238, 239,
     273, 324, 242, 243, 244, 337, 246, 347, 369, 249, 250, 251, 252, 281, 539, 255]
  ]

  /** BACKWARD_TABLE_LOWER (352 entries): bytes, 0 for "no byte". */
  const LOWER_ROWS: seq<seq<int>> := [
    [0, 0, 0, 0, 0, 0, 0, 0, 0, 0, 0, 0, 0, 0, 0, 0,
     0, 0, 0, 0, 0, 0, 0, 0, 0, 0, 0, 0, 0, 0, 0, 0],
    [128, 129, 130, 131, 132, 133, 134, 135, 136, 137, 138, 139, 140, 141, 142, 143,
     144, 145, 146, 147, 148, 149, 150, 151, 152, 153, 154, 155, 156, 157, 158, 159],
    [160, 0, 0, 0, 0, 0, 0, 167, 0, 169, 0, 171, 0, 173, 0, 0,
     176, 177, 0, 0, 0, 0, 182, 183, 0, 0, 0, 187, 0, 0, 0, 0],
    [192, 193, 194, 0, 196, 0, 198, 199, 200, 201, 202, 203, 204, 205, 206, 207,
     0, 0, 210, 211, 212, 0, 214, 0, 0, 217, 218, 219, 220, 0, 0, 223],
    [224, 225, 226, 0, 228, 0, 230, 231, 232, 233, 234, 235, 236, 237, 238, 239,
     0, 0, 242, 243, 244, 0, 246, 0, 0, 249, 250, 251, 252, 0, 0, 255],
    [0, 0, 195, 227, 161, 162, 197, 229, 0, 0, 0, 0, 178, 185, 0, 0,
     208, 240, 0, 0, 0, 0, 0, 0, 221, 253, 0, 0, 0, 0, 0, 0],
    [0, 163, 179, 209, 241, 0, 0, 0, 0, 0, 0, 0, 0, 0, 0, 0,
     213, 245, 188, 189, 0, 0, 0, 0, 0, 0, 215, 247, 0, 0, 0, 0],
    [166, 168, 0, 0, 0, 0, 0, 0, 0, 0, 0, 0, 0, 0, 0, 0,
     216, 248, 0, 0, 0, 0, 0, 0, 190, 172, 174, 175, 191, 180, 184, 0],
    [0, 0, 0, 0, 0, 0, 0, 0, 0, 0, 0, 0, 0, 0, 0, 0,
     0, 0, 0, 0, 0, 0, 0, 0, 170, 186, 222, 254, 0, 0, 0, 0],
    [0, 0, 0, 0, 0, 0, 0, 0, 0, 0, 0, 0, 0, 0, 0, 0,
     0, 0, 0, 0, 0, 0, 0, 0, 0, 0, 0, 0, 0, 181, 165, 0],
    [0, 0, 0, 0, 0, 0, 0, 0, 0, 0, 0, 0, 164, 0, 0, 0,
     0, 0, 0, 0, 0, 0, 0, 0, 0, 0, 0, 0, 0, 0, 0, 0]
  ]

  /** BACKWARD_TABLE_UPPER (262 entries): block offsets into BACKWARD_TABLE_LOWER. */
  const UPPER_ROWS: seq<seq<int>> := [
    [0, 0, 0, 0, 32, 64, 96, 128, 160, 0, 192, 224, 0, 0, 0, 0,
     256, 0, 0, 0, 0, 0, 0, 0, 0, 0, 0, 0, 0, 0, 0, 0],
    [0, 0, 0, 0, 0, 0, 0, 0, 0, 0, 0, 0, 0, 0, 0, 0,
     0, 0, 0, 0, 0, 0, 0, 0, 0, 0, 0, 0, 0, 0, 0, 0],
    [0, 0, 0, 0, 0, 0, 0, 0, 0, 0, 0, 0, 0, 0, 0, 0,
     0, 0, 0, 0, 0, 0, 0, 0, 0, 0, 0, 0, 0, 0, 0, 0],
    [0, 0, 0, 0, 0, 0, 0, 0, 0, 0, 0, 0, 0, 0, 0, 0,
     0, 0, 0, 0, 0, 0, 0, 0, 0, 0, 0, 0, 0, 0, 0, 0],
    [0, 0, 0, 0, 0, 0, 0, 0, 0, 0, 0, 0, 0, 0, 0, 0,
     0, 0, 0, 0, 0, 0, 0, 0, 0, 0, 0, 0, 0, 0, 0, 0],
    [0, 0, 0, 0, 0, 0, 0, 0, 0, 0, 0, 0, 0, 0, 0, 0,
     0, 0, 0, 0, 0, 0, 0, 0, 0, 0, 0, 0, 0, 0, 0, 0],
    [0, 0, 0, 0, 0, 0, 0, 0, 0, 0, 0, 0, 0, 0, 0, 0,
     0, 0, 0, 0, 0, 0, 0, 0, 0, 0, 0, 0, 0, 0, 0, 0],
    [0, 0, 0, 0, 0, 0, 0, 0, 0, 0, 0, 0, 0, 0, 0, 0,
     0, 0, 0, 0, 0, 0, 0, 0, 0, 0, 0, 0, 0, 0, 0, 0],
    [288, 0, 0, 0, 0, 320]
  ]

  const FORWARD_TABLE: seq<int> := Flatten(FORWARD_ROWS)
  const BACKWARD_TABLE_LOWER: seq<int> := Flatten(LOWER_ROWS)
  const BACKWARD_TABLE_UPPER: seq<int> := Flatten(UPPER_ROWS)

  /** The emitted index: `backward` shifts by 5 and masks with 31. */
  function Tables(): SingleByte.Tables {
    SingleByte.Tables(FORWARD_TABLE, BACKWARD_TABLE_LOWER, BACKWARD_TABLE_UPPER, 5)
  }

  /** The largest code point of the index (U+20AC, byte 0xA4); UPPER has
      one entry per bucket up to it. */
  const MAX_CODE_POINT: int := 8364

  /** `forward(code: u8)`: `FORWARD_TABLE[code - 0x80]`; the byte must be at
      least 0x80, since `code - 0x80` underflows below it. */
  function Forward(code: int): (r: int)
    requires 0x80 <= code <= 0xFF
    ensures 0 < r <= MAX_CODE_POINT
  {
    EntriesAgree();
    ForwardEntries();
    SingleByte.Forward(Tables(), code)
  }

  /** `backward(code: u32)`: bucket `code >> 5` selects an upper entry when it
      is below 262, and offset 0 otherwise; the result is the LOWER entry at
      that offset plus `code & 31`. Every read is in bounds (`TablesSafe`). */
  function Backward(code: nat): int
  {
    TablesSafe();
    SingleByte.Backward(Tables(), code)
  }

  /** FORWARD_TABLE[i] as a decision tree on `i`. */
  function ForwardEntry(i: int): int
  {
    if i < 64 then
      if i < 32 then
        if i < 16 then
          if i < 8 then
            if i < 4 then
              if i < 2 then
                if i < 1 then
                  128
                else
                  129
              else
                if i < 3 then
                  130
                else
                  131
            else
              if i < 6 then
                if i < 5 then
                  132
                else
                  133
              else
                if i < 7 then
                  134
                else
                  135
          else
            if i < 12 then
              if i < 10 then
                if i < 9 then
                  136
                else
                  137
              else
                if i < 11 then
                  138
                else
                  139
            else
              if i < 14 then
                if i < 13 then
                  140
                else
                  141
              else
                if i < 15 then
                  142
                else
                  143
        else
          if i < 24 then
            if i < 20 then
              if i < 18 then
                if i < 17 then
                  144
                else
                  145
              else
                if i < 19 then
                  146
                else
                  147
            else
              if i < 22 then
                if i < 21 then
                  148
                else
                  149
              else
                if i < 23 then
                  150
                else
                  151
          else
            if i < 28 then
              if i < 26 then
                if i < 25 then
                  152
                else
                  153
              else
                if i < 27 then
                  154
                else
                  155
            else
              if i < 30 then
                if i < 29 then
                  156
                else
                  157
              else
                if i < 31 then
                  158
                else
                  159
      else
        if i < 48 then
          if i < 40 then
            if i < 36 then
              if i < 34 then
                if i < 33 then
                  160
                else
                  260
              else
                if i < 35 then
                  261
                else
                  321
            else
              if i < 38 then
                if i < 37 then
                  8364
                else
                  8222
              else
                if i < 39 then
                  352
                else
                  167
          else
            if i < 44 then
              if i < 42 then
                if i < 41 then
                  353
                else
                  169
              else
                if i < 43 then
                  536
                else
                  171
            else
              if i < 46 then
                if i < 45 then
                  377
                else
                  173
              else
                if i < 47 then
                  378
                else
                  379
        else
          if i < 56 then
            if i < 52 then
              if i < 50 then
                if i < 49 then
                  176
                else
                  177
              else
                if i < 51 then
                  268
                else
                  322
            else
              if i < 54 then
                if i < 53 then
                  381
                else
                  8221
              else
                if i < 55 then
                  182
                else
                  183
          else
            if i < 60 then
              if i < 58 then
                if i < 57 then
                  382
                else
                  269
              else
                if i < 59 then
                  537
                else
                  187
            else
              if i < 62 then
                if i < 61 then
                  338
                else
                  339
              else
                if i < 63 then
                  376
                else
                  380
    else
      if i < 96 then
        if i < 80 then
          if i < 72 then
            if i < 68 then
              if i < 66 then
                if i < 65 then
                  192
                else
                  193
              else
                if i < 67 then
                  194
                else
                  258
            else
              if i < 70 then
                if i < 69 then
                  196
                else
                  262
              else
                if i < 71 then
                  198
                else
                  199
          else
            if i < 76 then
              if i < 74 then
                if i < 73 then
                  200
                else
                  201
              else
                if i < 75 then
                  202
                else
                  203
            else
              if i < 78 then
                if i < 77 then
                  204
                else
                  205
              else
                if i < 79 then
                  206
                else
                  207
        else
          if i < 88 then
            if i < 84 then
              if i < 82 then
                if i < 81 then
                  272
                else
                  323
              else
                if i < 83 then
                  210
                else
                  211
            else
              if i < 86 then
                if i < 85 then
                  212
                else
                  336
              else
                if i < 87 then
                  214
                else
                  346
          else
            if i < 92 then
              if i < 90 then
                if i < 89 then
                  368
                else
                  217
              else
                if i < 91 then
                  218
                else
                  219
            else
              if i < 94 then
                if i < 93 then
                  220
                else
                  280
              else
                if i < 95 then
                  538
                else
                  223
      else
        if i < 112 then
          if i < 104 then
            if i < 100 then
              if i < 98 then
                if i < 97 then
                  224
                else
                  225
              else
                if i < 99 then
                  226
                else
                  259
            else
              if i < 102 then
                if i < 101 then
                  228
                else
                  263
              else
                if i < 103 then
                  230
                else
                  231
          else
            if i < 108 then
              if i < 106 then
                if i < 105 then
                  232
                else
                  233
              else
                if i < 107 then
                  234
                else
                  235
            else
              if i < 110 then
                if i < 109 then
                  236
                else
                  237
              else
                if i < 111 then
                  238
                else
                  239
        else
          if i < 120 then
            if i < 116 then
              if i < 114 then
                if i < 113 then
                  273
                else
                  324
              else
                if i < 115 then
                  242
                else
                  243
            else
              if i < 118 then
                if i < 117 then
                  244
                else
                  337
              else
                if i < 119 then
                  246
                else
                  347
          else
            if i < 124 then
              if i < 122 then
                if i < 121 then
                  369
                else
                  249
              else
                if i < 123 then
                  250
                else
                  251
            else
              if i < 126 then
                if i < 125 then
                  252
                else
                  281
              else
                if i < 127 then
                  539
                else
                  255
  }

  /** BACKWARD_TABLE_LOWER[p] as a decision tree on `p`. */
  function LowerEntry(p: int): int
  {
    if p < 176 then
      if p < 88 then
        if p < 44 then
          if p < 22 then
            if p < 11 then
              if p < 5 then
                if p < 2 then
                  if p < 1 then
                    0
                  else
                    0
                else
                  if p < 3 then
                    0
                  else
                    if p < 4 then
                      0
                    else
                      0
              else
                if p < 8 then
                  if p < 6 then
                    0
                  else
                    if p < 7 then
                      0
                    else
                      0
                else
                  if p < 9 then
                    0
                  else
                    if p < 10 then
                      0
                    else
                      0
            else
              if p < 16 then
                if p < 13 then
                  if p < 12 then
                    0
                  else
                    0
                else
                  if p < 14 then
                    0
                  else
                    if p < 15 then
                      0
                    else
                      0
              else
                if p < 19 then
                  if p < 17 then
                    0
                  else
                    if p < 18 then
                      0
                    else
                      0
                else
                  if p < 20 then
                    0
                  else
                    if p < 21 then
                      0
                    else
                      0
          else
            if p < 33 then
              if p < 27 then
                if p < 24 then
                  if p < 23 then
                    0
                  else
                    0
                else
                  if p < 25 then
                    0
                  else
                    if p < 26 then
                      0
                    else
                      0
              else
                if p < 30 then
                  if p < 28 then
                    0
                  else
                    if p < 29 then
                      0
                    else
                      0
                else
                  if p < 31 then
                    0
                  else
                    if p < 32 then
                      0
                    else
                      128
            else
              if p < 38 then
                if p < 35 then
                  if p < 34 then
                    129
                  else
                    130
                else
                  if p < 36 then
                    131
                  else
                    if p < 37 then
                      132
                    else
                      133
              else
                if p < 41 then
                  if p < 39 then
                    134
                  else
                    if p < 40 then
                      135
                    else
                      136
                else
                  if p < 42 then
                    137
                  else
                    if p < 43 then
                      138
                    else
                      139
        else
          if p < 66 then
            if p < 55 then
              if p < 49 then
                if p < 46 then
                  if p < 45 then
                    140
                  else
                    141
                else
                  if p < 47 then
                    142
                  else
                    if p < 48 then
                      143
                    else
                      144
              else
                if p < 52 then
                  if p < 50 then
                    145
                  else
                    if p < 51 then
                      146
                    else
                      147
                else
                  if p < 53 then
                    148
                  else
                    if p < 54 then
                      149
                    else
                      150
            else
              if p < 60 then
                if p < 57 then
                  if p < 56 then
                    151
                  else
                    152
                else
                  if p < 58 then
                    153
                  else
                    if p < 59 then
                      154
                    else
                      155
              else
                if p < 63 then
                  if p < 61 then
                    156
                  else
                    if p < 62 then
                      157
                    else
                      158
                else
                  if p < 64 then
                    159
                  else
                    if p < 65 then
                      160
                    else
                      0
          else
            if p < 77 then
              if p < 71 then
                if p < 68 then
                  if p < 67 then
                    0
                  else
                    0
                else
                  if p < 69 then
                    0
                  else
                    if p < 70 then
                      0
                    else
                      0
              else
                if p < 74 then
                  if p < 72 then
                    167
                  else
                    if p < 73 then
                      0
                    else
                      169
                else
                  if p < 75 then
                    0
                  else
                    if p < 76 then
                      171
                    else
                      0
            else
              if p < 82 then
                if p < 79 then
                  if p < 78 then
                    173
                  else
                    0
                else
                  if p < 80 then
                    0
                  else
                    if p < 81 then
                      176
                    else
                      177
              else
                if p < 85 then
                  if p < 83 then
                    0
                  else
                    if p < 84 then
                      0
                    else
                      0
                else
                  if p < 86 then
                    0
                  else
                    if p < 87 then
                      182
                    else
                      183
      else
        if p < 132 then
          if p < 110 then
            if p < 99 then
              if p < 93 then
                if p < 90 then
                  if p < 89 then
                    0
                  else
                    0
                else
                  if p < 91 then
                    0
                  else
                    if p < 92 then
                      187
                    else
                      0
              else
                if p < 96 then
                  if p < 94 then
                    0
                  else
                    if p < 95 then
                      0
                    else
                      0
                else
                  if p < 97 then
                    192
                  else
                    if p < 98 then
                      193
                    else
                      194
            else
              if p < 104 then
                if p < 101 then
                  if p < 100 then
                    0
                  else
                    196
                else
                  if p < 102 then
                    0
                  else
                    if p < 103 then
                      198
                    else
                      199
              else
                if p < 107 then
                  if p < 105 then
                    200
                  else
                    if p < 106 then
                      201
                    else
                      202
                else
                  if p < 108 then
                    203
                  else
                    if p < 109 then
                      204
                    else
                      205
          else
            if p < 121 then
              if p < 115 then
                if p < 112 then
                  if p < 111 then
                    206
                  else
                    207
                else
                  if p < 113 then
                    0
                  else
                    if p < 114 then
                      0
                    else
                      210
              else
                if p < 118 then
                  if p < 116 then
                    211
                  else
                    if p < 117 then
                      212
                    else
                      0
                else
                  if p < 119 then
                    214
                  else
                    if p < 120 then
                      0
                    else
                      0
            else
              if p < 126 then
                if p < 123 then
                  if p < 122 then
                    217
                  else
                    218
                else
                  if p < 124 then
                    219
                  else
                    if p < 125 then
                      220
                    else
                      0
              else
                if p < 129 then
                  if p < 127 then
                    0
                  else
                    if p < 128 then
                      223
                    else
                      224
                else
                  if p < 130 then
                    225
                  else
                    if p < 131 then
                      226
                    else
                      0
        else
          if p < 154 then
            if p < 143 then
              if p < 137 then
                if p < 134 then
                  if p < 133 then
                    228
                  else
                    0
                else
                  if p < 135 then
                    230
                  else
                    if p < 136 then
                      231
                    else
                      232
              else
                if p < 140 then
                  if p < 138 then
                    233
                  else
                    if p < 139 then
                      234
                    else
                      235
                else
                  if p < 141 then
                    236
                  else
                    if p < 142 then
                      237
                    else
                      238
            else
              if p < 148 then
                if p < 145 then
                  if p < 144 then
                    239
                  else
                    0
                else
                  if p < 146 then
                    0
                  else
                    if p < 147 then
                      242
                    else
                      243
              else
                if p < 151 then
                  if p < 149 then
                    244
                  else
                    if p < 150 then
                      0
                    else
                      246
                else
                  if p < 152 then
                    0
                  else
                    if p < 153 then
                      0
                    else
                      249
          else
            if p < 165 then
              if p < 159 then
                if p < 156 then
                  if p < 155 then
                    250
                  else
                    251
                else
                  if p < 157 then
                    252
                  else
                    if p < 158 then
                      0
                    else
                      0
              else
                if p < 162 then
                  if p < 160 then
                    255
                  else
                    if p < 161 then
                      0
                    else
                      0
                else
                  if p < 163 then
                    195
                  else
                    if p < 164 then
                      227
                    else
                      161
            else
              if p < 170 then
                if p < 167 then
                  if p < 166 then
                    162
                  else
                    197
                else
                  if p < 168 then
                    229
                  else
                    if p < 169 then
                      0
                    else
                      0
              else
                if p < 173 then
                  if p < 171 then
                    0
                  else
                    if p < 172 then
                      0
                    else
                      178
                else
                  if p < 174 then
                    185
                  else
                    if p < 175 then
                      0
                    else
                      0
    else
      if p < 264 then
        if p < 220 then
          if p < 198 then
            if p < 187 then
              if p < 181 then
                if p < 178 then
                  if p < 177 then
                    208
                  else
                    240
                else
                  if p < 179 then
                    0
                  else
                    if p < 180 then
                      0
                    else
                      0
              else
                if p < 184 then
                  if p < 182 then
                    0
                  else
                    if p < 183 then
                      0
                    else
                      0
                else
                  if p < 185 then
                    221
                  else
                    if p < 186 then
                      253
                    else
                      0
            else
              if p < 192 then
                if p < 189 then
                  if p < 188 then
                    0
                  else
                    0
                else
                  if p < 190 then
                    0
                  else
                    if p < 191 then
                      0
                    else
                      0
              else
                if p < 195 then
                  if p < 193 then
                    0
                  else
                    if p < 194 then
                      163
                    else
                      179
                else
                  if p < 196 then
                    209
                  else
                    if p < 197 then
                      241
                    else
                      0
          else
            if p < 209 then
              if p < 203 then
                if p < 200 then
                  if p < 199 then
                    0
                  else
                    0
                else
                  if p < 201 then
                    0
                  else
                    if p < 202 then
                      0
                    else
                      0
              else
                if p < 206 then
                  if p < 204 then
                    0
                  else
                    if p < 205 then
                      0
                    else
                      0
                else
                  if p < 207 then
                    0
                  else
                    if p < 208 then
                      0
                    else
                      213
            else
              if p < 214 then
                if p < 211 then
                  if p < 210 then
                    245
                  else
                    188
                else
                  if p < 212 then
                    189
                  else
                    if p < 213 then
                      0
                    else
                      0
              else
                if p < 217 then
                  if p < 215 then
                    0
                  else
                    if p < 216 then
                      0
                    else
                      0
                else
                  if p < 218 then
                    0
                  else
                    if p < 219 then
                      215
                    else
                      247
        else
          if p < 242 then
            if p < 231 then
              if p < 225 then
                if p < 222 then
                  if p < 221 then
                    0
                  else
                    0
                else
                  if p < 223 then
                    0
                  else
                    if p < 224 then
                      0
                    else
                      166
              else
                if p < 228 then
                  if p < 226 then
                    168
                  else
                    if p < 227 then
                      0
                    else
                      0
                else
                  if p < 229 then
                    0
                  else
                    if p < 230 then
                      0
                    else
                      0
            else
              if p < 236 then
                if p < 233 then
                  if p < 232 then
                    0
                  else
                    0
                else
                  if p < 234 then
                    0
                  else
                    if p < 235 then
                      0
                    else
                      0
              else
                if p < 239 then
                  if p < 237 then
                    0
                  else
                    if p < 238 then
                      0
                    else
                      0
                else
                  if p < 240 then
                    0
                  else
                    if p < 241 then
                      216
                    else
                      248
          else
            if p < 253 then
              if p < 247 then
                if p < 244 then
                  if p < 243 then
                    0
                  else
                    0
                else
                  if p < 245 then
                    0
                  else
                    if p < 246 then
                      0
                    else
                      0
              else
                if p < 250 then
                  if p < 248 then
                    0
                  else
                    if p < 249 then
                      190
                    else
                      172
                else
                  if p < 251 then
                    174
                  else
                    if p < 252 then
                      175
                    else
                      191
            else
              if p < 258 then
                if p < 255 then
                  if p < 254 then
                    180
                  else
                    184
                else
                  if p < 256 then
                    0
                  else
                    if p < 257 then
                      0
                    else
                      0
              else
                if p < 261 then
                  if p < 259 then
                    0
                  else
                    if p < 260 then
                      0
                    else
                      0
                else
                  if p < 262 then
                    0
                  else
                    if p < 263 then
                      0
                    else
                      0
      else
        if p < 308 then
          if p < 286 then
            if p < 275 then
              if p < 269 then
                if p < 266 then
                  if p < 265 then
                    0
                  else
                    0
                else
                  if p < 267 then
                    0
                  else
                    if p < 268 then
                      0
                    else
                      0
              else
                if p < 272 then
                  if p < 270 then
                    0
                  else
                    if p < 271 then
                      0
                    else
                      0
                else
                  if p < 273 then
                    0
                  else
                    if p < 274 then
                      0
                    else
                      0
            else
              if p < 280 then
                if p < 277 then
                  if p < 276 then
                    0
                  else
                    0
                else
                  if p < 278 then
                    0
                  else
                    if p < 279 then
                      0
                    else
                      0
              else
                if p < 283 then
                  if p < 281 then
                    170
                  else
                    if p < 282 then
                      186
                    else
                      222
                else
                  if p < 284 then
                    254
                  else
                    if p < 285 then
                      0
                    else
                      0
          else
            if p < 297 then
              if p < 291 then
                if p < 288 then
                  if p < 287 then
                    0
                  else
                    0
                else
                  if p < 289 then
                    0
                  else
                    if p < 290 then
                      0
                    else
                      0
              else
                if p < 294 then
                  if p < 292 then
                    0
                  else
                    if p < 293 then
                      0
                    else
                      0
                else
                  if p < 295 then
                    0
                  else
                    if p < 296 then
                      0
                    else
                      0
            else
              if p < 302 then
                if p < 299 then
                  if p < 298 then
                    0
                  else
                    0
                else
                  if p < 300 then
                    0
                  else
                    if p < 301 then
                      0
                    else
                      0
              else
                if p < 305 then
                  if p < 303 then
                    0
                  else
                    if p < 304 then
                      0
                    else
                      0
                else
                  if p < 306 then
                    0
                  else
                    if p < 307 then
                      0
                    else
                      0
        else
          if p < 330 then
            if p < 319 then
              if p < 313 then
                if p < 310 then
                  if p < 309 then
                    0
                  else
                    0
                else
                  if p < 311 then
                    0
                  else
                    if p < 312 then
                      0
                    else
                      0
              else
                if p < 316 then
                  if p < 314 then
                    0
                  else
                    if p < 315 then
                      0
                    else
                      0
                else
                  if p < 317 then
                    0
                  else
                    if p < 318 then
                      181
                    else
                      165
            else
              if p < 324 then
                if p < 321 then
                  if p < 320 then
                    0
                  else
                    0
                else
                  if p < 322 then
                    0
                  else
                    if p < 323 then
                      0
                    else
                      0
              else
                if p < 327 then
                  if p < 325 then
                    0
                  else
                    if p < 326 then
                      0
                    else
                      0
                else
                  if p < 328 then
                    0
                  else
                    if p < 329 then
                      0
                    else
                      0
          else
            if p < 341 then
              if p < 335 then
                if p < 332 then
                  if p < 331 then
                    0
                  else
                    0
                else
                  if p < 333 then
                    164
                  else
                    if p < 334 then
                      0
                    else
                      0
              else
                if p < 338 then
                  if p < 336 then
                    0
                  else
                    if p < 337 then
                      0
                    else
                      0
                else
                  if p < 339 then
                    0
                  else
                    if p < 340 then
                      0
                    else
                      0
            else
              if p < 346 then
                if p < 343 then
                  if p < 342 then
                    0
                  else
                    0
                else
                  if p < 344 then
                    0
                  else
                    if p < 345 then
                      0
                    else
                      0
              else
                if p < 349 then
                  if p < 347 then
                    0
                  else
                    if p < 348 then
                      0
                    else
                      0
                else
                  if p < 350 then
                    0
                  else
                    if p < 351 then
                      0
                    else
                      0
  }

  /** BACKWARD_TABLE_UPPER[k] as a decision tree on `k`. */
  function UpperEntry(k: int): int
  {
    if k < 131 then
      if k < 65 then
        if k < 32 then
          if k < 16 then
            if k < 8 then
              if k < 4 then
                if k < 2 then
                  if k < 1 then
                    0
                  else
                    0
                else
                  if k < 3 then
                    0
                  else
                    0
              else
                if k < 6 then
                  if k < 5 then
                    32
                  else
                    64
                else
                  if k < 7 then
                    96
                  else
                    128
            else
              if k < 12 then
                if k < 10 then
                  if k < 9 then
                    160
                  else
                    0
                else
                  if k < 11 then
                    192
                  else
                    224
              else
                if k < 14 then
                  if k < 13 then
                    0
                  else
                    0
                else
                  if k < 15 then
                    0
                  else
                    0
          else
            if k < 24 then
              if k < 20 then
                if k < 18 then
                  if k < 17 then
                    256
                  else
                    0
                else
                  if k < 19 then
                    0
                  else
                    0
              else
                if k < 22 then
                  if k < 21 then
                    0
                  else
                    0
                else
                  if k < 23 then
                    0
                  else
                    0
            else
              if k < 28 then
                if k < 26 then
                  if k < 25 then
                    0
                  else
                    0
                else
                  if k < 27 then
                    0
                  else
                    0
              else
                if k < 30 then
                  if k < 29 then
                    0
                  else
                    0
                else
                  if k < 31 then
                    0
                  else
                    0
        else
          if k < 48 then
            if k < 40 then
              if k < 36 then
                if k < 34 then
                  if k < 33 then
                    0
                  else
                    0
                else
                  if k < 35 then
                    0
                  else
                    0
              else
                if k < 38 then
                  if k < 37 then
                    0
                  else
                    0
                else
                  if k < 39 then
                    0
                  else
                    0
            else
              if k < 44 then
                if k < 42 then
                  if k < 41 then
                    0
                  else
                    0
                else
                  if k < 43 then
                    0
                  else
                    0
              else
                if k < 46 then
                  if k < 45 then
                    0
                  else
                    0
                else
                  if k < 47 then
                    0
                  else
                    0
          else
            if k < 56 then
              if k < 52 then
                if k < 50 then
                  if k < 49 then
                    0
                  else
                    0
                else
                  if k < 51 then
                    0
                  else
                    0
              else
                if k < 54 then
                  if k < 53 then
                    0
                  else
                    0
                else
                  if k < 55 then
                    0
                  else
                    0
            else
              if k < 60 then
                if k < 58 then
                  if k < 57 then
                    0
                  else
                    0
                else
                  if k < 59 then
                    0
                  else
                    0
              else
                if k < 62 then
                  if k < 61 then
                    0
                  else
                    0
                else
                  if k < 63 then
                    0
                  else
                    if k < 64 then
                      0
                    else
                      0
      else
        if k < 98 then
          if k < 81 then
            if k < 73 then
              if k < 69 then
                if k < 67 then
                  if k < 66 then
                    0
                  else
                    0
                else
                  if k < 68 then
                    0
                  else
                    0
              else
                if k < 71 then
                  if k < 70 then
                    0
                  else
                    0
                else
                  if k < 72 then
                    0
                  else
                    0
            else
              if k < 77 then
                if k < 75 then
                  if k < 74 then
                    0
                  else
                    0
                else
                  if k < 76 then
                    0
                  else
                    0
              else
                if k < 79 then
                  if k < 78 then
                    0
                  else
                    0
                else
                  if k < 80 then
                    0
                  else
                    0
          else
            if k < 89 then
              if k < 85 then
                if k < 83 then
                  if k < 82 then
                    0
                  else
                    0
                else
                  if k < 84 then
                    0
                  else
                    0
              else
                if k < 87 then
                  if k < 86 then
                    0
                  else
                    0
                else
                  if k < 88 then
                    0
                  else
                    0
            else
              if k < 93 then
                if k < 91 then
                  if k < 90 then
                    0
                  else
                    0
                else
                  if k < 92 then
                    0
                  else
                    0
              else
                if k < 95 then
                  if k < 94 then
                    0
                  else
                    0
                else
                  if k < 96 then
                    0
                  else
                    if k < 97 then
                      0
                    else
                      0
        else
          if k < 114 then
            if k < 106 then
              if k < 102 then
                if k < 100 then
                  if k < 99 then
                    0
                  else
                    0
                else
                  if k < 101 then
                    0
                  else
                    0
              else
                if k < 104 then
                  if k < 103 then
                    0
                  else
                    0
                else
                  if k < 105 then
                    0
                  else
                    0
            else
              if k < 110 then
                if k < 108 then
                  if k < 107 then
                    0
                  else
                    0
                else
                  if k < 109 then
                    0
                  else
                    0
              else
                if k < 112 then
                  if k < 111 then
                    0
                  else
                    0
                else
                  if k < 113 then
                    0
                  else
                    0
          else
            if k < 122 then
              if k < 118 then
                if k < 116 then
                  if k < 115 then
                    0
                  else
                    0
                else
                  if k < 117 then
                    0
                  else
                    0
              else
                if k < 120 then
                  if k < 119 then
                    0
                  else
                    0
                else
                  if k < 121 then
                    0
                  else
                    0
            else
              if k < 126 then
                if k < 124 then
                  if k < 123 then
                    0
                  else
                    0
                else
                  if k < 125 then
                    0
                  else
                    0
              else
                if k < 128 then
                  if k < 127 then
                    0
                  else
                    0
                else
                  if k < 129 then
                    0
                  else
                    if k < 130 then
                      0
                    else
                      0
    else
      if k < 196 then
        if k < 163 then
          if k < 147 then
            if k < 139 then
              if k < 135 then
                if k < 133 then
                  if k < 132 then
                    0
                  else
                    0
                else
                  if k < 134 then
                    0
                  else
                    0
              else
                if k < 137 then
                  if k < 136 then
                    0
                  else
                    0
                else
                  if k < 138 then
                    0
                  else
                    0
            else
              if k < 143 then
                if k < 141 then
                  if k < 140 then
                    0
                  else
                    0
                else
                  if k < 142 then
                    0
                  else
                    0
              else
                if k < 145 then
                  if k < 144 then
                    0
                  else
                    0
                else
                  if k < 146 then
                    0
                  else
                    0
          else
            if k < 155 then
              if k < 151 then
                if k < 149 then
                  if k < 148 then
                    0
                  else
                    0
                else
                  if k < 150 then
                    0
                  else
                    0
              else
                if k < 153 then
                  if k < 152 then
                    0
                  else
                    0
                else
                  if k < 154 then
                    0
                  else
                    0
            else
              if k < 159 then
                if k < 157 then
                  if k < 156 then
                    0
                  else
                    0
                else
                  if k < 158 then
                    0
                  else
                    0
              else
                if k < 161 then
                  if k < 160 then
                    0
                  else
                    0
                else
                  if k < 162 then
                    0
                  else
                    0
        else
          if k < 179 then
            if k < 171 then
              if k < 167 then
                if k < 165 then
                  if k < 164 then
                    0
                  else
                    0
                else
                  if k < 166 then
                    0
                  else
                    0
              else
                if k < 169 then
                  if k < 168 then
                    0
                  else
                    0
                else
                  if k < 170 then
                    0
                  else
                    0
            else
              if k < 175 then
                if k < 173 then
                  if k < 172 then
                    0
                  else
                    0
                else
                  if k < 174 then
                    0
                  else
                    0
              else
                if k < 177 then
                  if k < 176 then
                    0
                  else
                    0
                else
                  if k < 178 then
                    0
                  else
                    0
          else
            if k < 187 then
              if k < 183 then
                if k < 181 then
                  if k < 180 then
                    0
                  else
                    0
                else
                  if k < 182 then
                    0
                  else
                    0
              else
                if k < 185 then
                  if k < 184 then
                    0
                  else
                    0
                else
                  if k < 186 then
                    0
                  else
                    0
            else
              if k < 191 then
                if k < 189 then
                  if k < 188 then
                    0
                  else
                    0
                else
                  if k < 190 then
                    0
                  else
                    0
              else
                if k < 193 then
                  if k < 192 then
                    0
                  else
                    0
                else
                  if k < 194 then
                    0
                  else
                    if k < 195 then
                      0
                    else
                      0
      else
        if k < 229 then
          if k < 212 then
            if k < 204 then
              if k < 200 then
                if k < 198 then
                  if k < 197 then
                    0
                  else
                    0
                else
                  if k < 199 then
                    0
                  else
                    0
              else
                if k < 202 then
                  if k < 201 then
                    0
                  else
                    0
                else
                  if k < 203 then
                    0
                  else
                    0
            else
              if k < 208 then
                if k < 206 then
                  if k < 205 then
                    0
                  else
                    0
                else
                  if k < 207 then
                    0
                  else
                    0
              else
                if k < 210 then
                  if k < 209 then
                    0
                  else
                    0
                else
                  if k < 211 then
                    0
                  else
                    0
          else
            if k < 220 then
              if k < 216 then
                if k < 214 then
                  if k < 213 then
                    0
                  else
                    0
                else
                  if k < 215 then
                    0
                  else
                    0
              else
                if k < 218 then
                  if k < 217 then
                    0
                  else
                    0
                else
                  if k < 219 then
                    0
                  else
                    0
            else
              if k < 224 then
                if k < 222 then
                  if k < 221 then
                    0
                  else
                    0
                else
                  if k < 223 then
                    0
                  else
                    0
              else
                if k < 226 then
                  if k < 225 then
                    0
                  else
                    0
                else
                  if k < 227 then
                    0
                  else
                    if k < 228 then
                      0
                    else
                      0
        else
          if k < 245 then
            if k < 237 then
              if k < 233 then
                if k < 231 then
                  if k < 230 then
                    0
                  else
                    0
                else
                  if k < 232 then
                    0
                  else
                    0
              else
                if k < 235 then
                  if k < 234 then
                    0
                  else
                    0
                else
                  if k < 236 then
                    0
                  else
                    0
            else
              if k < 241 then
                if k < 239 then
                  if k < 238 then
                    0
                  else
                    0
                else
                  if k < 240 then
                    0
                  else
                    0
              else
                if k < 243 then
                  if k < 242 then
                    0
                  else
                    0
                else
                  if k < 244 then
                    0
                  else
                    0
          else
            if k < 253 then
              if k < 249 then
                if k < 247 then
                  if k < 246 then
                    0
                  else
                    0
                else
                  if k < 248 then
                    0
                  else
                    0
              else
                if k < 251 then
                  if k < 250 then
                    0
                  else
                    0
                else
                  if k < 252 then
                    0
                  else
                    0
            else
              if k < 257 then
                if k < 255 then
                  if k < 254 then
                    0
                  else
                    0
                else
                  if k < 256 then
                    0
                  else
                    288
              else
                if k < 259 then
                  if k < 258 then
                    0
                  else
                    0
                else
                  if k < 260 then
                    0
                  else
                    if k < 261 then
                      0
                    else
                      320
  }

  /** `forward` evaluated on the decision tree. */
  function ForwardEval(code: int): int {
    ForwardEntry(code - 0x80)
  }

  /** `backward` evaluated on the decision trees. */
  function BackwardEval(code: nat): int {
    var offset := code / 32;
    var base := if offset < 262 then UpperEntry(offset) else 0;
    LowerEntry(base + code % 32)
  }

  lemma Shapes()
    ensures Rows(FORWARD_ROWS, 128) && Rows(LOWER_ROWS, 352) && Rows(UPPER_ROWS, 262)
  {}

  lemma ForwardRow0()
    ensures |FORWARD_ROWS| > 0 && |FORWARD_ROWS[0]| == 32
    ensures forall j | 0 <= j < 32 :: FORWARD_ROWS[0][j] == ForwardEntry(0 + j)
  {}

  lemma ForwardRow1()
    ensures |FORWARD_ROWS| > 1 && |FORWARD_ROWS[1]| == 32
    ensures forall j | 0 <= j < 32 :: FORWARD_ROWS[1][j] == ForwardEntry(32 + j)
  {}

  lemma ForwardRow2()
    ensures |FORWARD_ROWS| > 2 && |FORWARD_ROWS[2]| == 32
    ensures forall j | 0 <= j < 32 :: FORWARD_ROWS[2][j] == ForwardEntry(64 + j)
  {}

  lemma ForwardRow3()
    ensures |FORWARD_ROWS| > 3 && |FORWARD_ROWS[3]| == 32
    ensures forall j | 0 <= j < 32 :: FORWARD_ROWS[3][j] == ForwardEntry(96 + j)
  {}

  lemma LowerRow0()
    ensures |LOWER_ROWS| > 0 && |LOWER_ROWS[0]| == 32
    ensures forall j | 0 <= j < 32 :: LOWER_ROWS[0][j] == LowerEntry(0 + j)
  {}

  lemma LowerRow1()
    ensures |LOWER_ROWS| > 1 && |LOWER_ROWS[1]| == 32
    ensures forall j | 0 <= j < 32 :: LOWER_ROWS[1][j] == LowerEntry(32 + j)
  {}

  lemma LowerRow2()
    ensures |LOWER_ROWS| > 2 && |LOWER_ROWS[2]| == 32
    ensures forall j | 0 <= j < 32 :: LOWER_ROWS[2][j] == LowerEntry(64 + j)
  {}

  lemma LowerRow3()
    ensures |LOWER_ROWS| > 3 && |LOWER_ROWS[3]| == 32
    ensures forall j | 0 <= j < 32 :: LOWER_ROWS[3][j] == LowerEntry(96 + j)
  {}

  lemma LowerRow4()
    ensures |LOWER_ROWS| > 4 && |LOWER_ROWS[4]| == 32
    ensures forall j | 0 <= j < 32 :: LOWER_ROWS[4][j] == LowerEntry(128 + j)
  {}

  lemma LowerRow5()
    ensures |LOWER_ROWS| > 5 && |LOWER_ROWS[5]| == 32
    ensures forall j | 0 <= j < 32 :: LOWER_ROWS[5][j] == LowerEntry(160 + j)
  {}

  lemma LowerRow6()
    ensures |LOWER_ROWS| > 6 && |LOWER_ROWS[6]| == 32
    ensures forall j | 0 <= j < 32 :: LOWER_ROWS[6][j] == LowerEntry(192 + j)
  {}

  lemma LowerRow7()
    ensures |LOWER_ROWS| > 7 && |LOWER_ROWS[7]| == 32
    ensures forall j | 0 <= j < 32 :: LOWER_ROWS[7][j] == LowerEntry(224 + j)
  {}

  lemma LowerRow8()
    ensures |LOWER_ROWS| > 8 && |LOWER_ROWS[8]| == 32
    ensures forall j | 0 <= j < 32 :: LOWER_ROWS[8][j] == LowerEntry(256 + j)
  {}

  lemma LowerRow9()
    ensures |LOWER_ROWS| > 9 && |LOWER_ROWS[9]| == 32
    ensures forall j | 0 <= j < 32 :: LOWER_ROWS[9][j] == LowerEntry(288 + j)
  {}

  lemma LowerRow10()
    ensures |LOWER_ROWS| > 10 && |LOWER_ROWS[10]| == 32
    ensures forall j | 0 <= j < 32 :: LOWER_ROWS[10][j] == LowerEntry(320 + j)
  {}

  lemma UpperRow0()
    ensures |UPPER_ROWS| > 0 && |UPPER_ROWS[0]| == 32
    ensures forall j | 0 <= j < 32 :: UPPER_ROWS[0][j] == UpperEntry(0 + j)
  {}

  lemma UpperRow1()
    ensures |UPPER_ROWS| > 1 && |UPPER_ROWS[1]| == 32
    ensures forall j | 0 <= j < 32 :: UPPER_ROWS[1][j] == UpperEntry(32 + j)
  {}

  lemma UpperRow2()
    ensures |UPPER_ROWS| > 2 && |UPPER_ROWS[2]| == 32
    ensures forall j | 0 <= j < 32 :: UPPER_ROWS[2][j] == UpperEntry(64 + j)
  {}

  lemma UpperRow3()
    ensures |UPPER_ROWS| > 3 && |UPPER_ROWS[3]| == 32
    ensures forall j | 0 <= j < 32 :: UPPER_ROWS[3][j] == UpperEntry(96 + j)
  {}

  lemma UpperRow4()
    ensures |UPPER_ROWS| > 4 && |UPPER_ROWS[4]| == 32
    ensures forall j | 0 <= j < 32 :: UPPER_ROWS[4][j] == UpperEntry(128 + j)
  {}

  lemma UpperRow5()
    ensures |UPPER_ROWS| > 5 && |UPPER_ROWS[5]| == 32
    ensures forall j | 0 <= j < 32 :: UPPER_ROWS[5][j] == UpperEntry(160 + j)
  {}

  lemma UpperRow6()
    ensures |UPPER_ROWS| > 6 && |UPPER_ROWS[6]| == 32
    ensures forall j | 0 <= j < 32 :: UPPER_ROWS[6][j] == UpperEntry(192 + j)
  {}

  lemma UpperRow7()
    ensures |UPPER_ROWS| > 7 && |UPPER_ROWS[7]| == 32
    ensures forall j | 0 <= j < 32 :: UPPER_ROWS[7][j] == UpperEntry(224 + j)
  {}

  lemma UpperRow8()
    ensures |UPPER_ROWS| > 8 && |UPPER_ROWS[8]| == 6
    ensures forall j | 0 <= j < 6 :: UPPER_ROWS[8][j] == UpperEntry(256 + j)
  {}

  lemma ForwardAgrees()
    ensures |FORWARD_TABLE| == 128
    ensures forall i | 0 <= i < 128 :: FORWARD_TABLE[i] == ForwardEntry(i)
  {
    Shapes();
    RowsFlatten(FORWARD_ROWS, 128);
    forall i | 0 <= i < 128
      ensures FORWARD_TABLE[i] == ForwardEntry(i)
    {
      if i < 64 {
        if i < 32 {
          ForwardRow0();
        } else {
          ForwardRow1();
        }
      } else {
        if i < 96 {
          ForwardRow2();
        } else {
          ForwardRow3();
        }
      }
    }
  }

  lemma LowerAgrees()
    ensures |BACKWARD_TABLE_LOWER| == 352
    ensures forall p | 0 <= p < 352 :: BACKWARD_TABLE_LOWER[p] == LowerEntry(p)
  {
    Shapes();
    RowsFlatten(LOWER_ROWS, 352);
    forall p | 0 <= p < 352
      ensures BACKWARD_TABLE_LOWER[p] == LowerEntry(p)
    {
      if p < 160 {
        if p < 64 {
          if p < 32 {
            LowerRow0();
          } else {
            LowerRow1();
          }
        } else {
          if p < 96 {
            LowerRow2();
          } else {
            if p < 128 {
              LowerRow3();
            } else {
              LowerRow4();
            }
          }
        }
      } else {
        if p < 256 {
          if p < 192 {
            LowerRow5();
          } else {
            if p < 224 {
              LowerRow6();
            } else {
              LowerRow7();
            }
          }
        } else {
          if p < 288 {
            LowerRow8();
          } else {
            if p < 320 {
              LowerRow9();
            } else {
              LowerRow10();
            }
          }
        }
      }
    }
  }

  lemma UpperAgrees()
    ensures |BACKWARD_TABLE_UPPER| == 262
    ensures forall k | 0 <= k < 262 :: BACKWARD_TABLE_UPPER[k] == UpperEntry(k)
  {
    Shapes();
    RowsFlatten(UPPER_ROWS, 262);
    forall k | 0 <= k < 262
      ensures BACKWARD_TABLE_UPPER[k] == UpperEntry(k)
    {
      if k < 128 {
        if k < 64 {
          if k < 32 {
            UpperRow0();
          } else {
            UpperRow1();
          }
        } else {
          if k < 96 {
            UpperRow2();
          } else {
            UpperRow3();
          }
        }
      } else {
        if k < 192 {
          if k < 160 {
            UpperRow4();
          } else {
            UpperRow5();
          }
        } else {
          if k < 224 {
            UpperRow6();
          } else {
            if k < 256 {
              UpperRow7();
            } else {
              UpperRow8();
            }
          }
        }
      }
    }
  }

  /** The tables hold exactly the entries of the decision trees. */
  lemma EntriesAgree()
    ensures |FORWARD_TABLE| == 128 && |BACKWARD_TABLE_LOWER| == 352 && |BACKWARD_TABLE_UPPER| == 262
    ensures forall i | 0 <= i < 128 :: FORWARD_TABLE[i] == ForwardEntry(i)
    ensures forall p | 0 <= p < 352 :: BACKWARD_TABLE_LOWER[p] == LowerEntry(p)
    ensures forall k | 0 <= k < 262 :: BACKWARD_TABLE_UPPER[k] == UpperEntry(k)
  {
    ForwardAgrees();
    LowerAgrees();
    UpperAgrees();
  }

  /** Every FORWARD_TABLE entry is a code point other than `X`. */
  lemma ForwardEntries()
    ensures forall i | 0 <= i < 128 :: 0 < ForwardEntry(i) <= MAX_CODE_POINT
  {}

  /** Every upper entry is a block offset of at most 320, so the block it
      starts ends inside the 352 LOWER entries. */
  lemma UpperEntries()
    ensures forall k | 0 <= k < 262 :: 0 <= UpperEntry(k) <= 320
  {}

  /** LOWER starts with an all-zero block. */
  lemma LowerZeroBlock()
    ensures forall p | 0 <= p < 32 :: LowerEntry(p) == 0
  {}

  /** Memory safety of `forward` and `backward` for every input: the tables
      have their emitted lengths, and every upper entry plus 31 indexes
      inside LOWER. */
  lemma TablesSafe()
    ensures SingleByte.Safe(Tables())
    ensures |BACKWARD_TABLE_UPPER| == MAX_CODE_POINT / 32 + 1
    ensures |BACKWARD_TABLE_UPPER| == 262 && |BACKWARD_TABLE_LOWER| == 352
    ensures forall k | 0 <= k < 262 :: BACKWARD_TABLE_UPPER[k] + 31 < |BACKWARD_TABLE_LOWER|
  {
    EntriesAgree();
    ForwardEntries();
    UpperEntries();
    assert Pow2(5) == 32;
  }

  /** `forward` and `backward` are their decision-tree evaluations. */
  lemma EvalAgrees()
    ensures forall b | 0x80 <= b <= 0xFF :: Forward(b) == ForwardEval(b)
    ensures forall c: nat :: Backward(c) == BackwardEval(c)
  {
    EntriesAgree();
    TablesSafe();
    UpperEntries();
    forall c: nat
      ensures Backward(c) == BackwardEval(c)
    {
      ShrMaskUnique(c, 5, c / 32, c % 32);
    }
  }

  lemma RoundTripEval()
    ensures forall b | 0x80 <= b <= 0xFF :: BackwardEval(ForwardEval(b)) == b
  {}

  lemma ConverseEvalLow()
    ensures forall c | 0 <= c < 4192 ::
      BackwardEval(c) == 0 || (0x80 <= BackwardEval(c) <= 0xFF && ForwardEval(BackwardEval(c)) == c)
  {}

  lemma ConverseEvalHigh()
    ensures forall c | 4192 <= c < 8384 ::
      BackwardEval(c) == 0 || (0x80 <= BackwardEval(c) <= 0xFF && ForwardEval(BackwardEval(c)) == c)
  {}

  /** Empty buckets, and every bucket past UPPER, read the all-zero block of
      LOWER: `backward` answers 0 there. */
  lemma EmptyBuckets()
    ensures forall c: nat | c / 32 >= 262 :: Backward(c) == 0
    ensures forall c: nat | c / 32 < |BACKWARD_TABLE_UPPER| && BACKWARD_TABLE_UPPER[c / 32] == 0 :: Backward(c) == 0
  {
    EvalAgrees();
    EntriesAgree();
    LowerZeroBlock();
  }

  /** Round trip: `backward` finds every byte again from its code point. */
  lemma RoundTrip()
    ensures forall b | 0x80 <= b <= 0xFF :: Backward(Forward(b)) == b
  {
    EvalAgrees();
    RoundTripEval();
    ForwardEntries();
  }

  /** Converse: a non-zero answer of `backward` is a byte 0x80..0xFF whose
      code point is the query, so `backward` is non-zero on exactly the
      128 code points of FORWARD_TABLE. */
  lemma Converse()
    ensures forall c: nat :: Backward(c) == 0 || 0x80 <= Backward(c) <= 0xFF
    ensures forall c: nat | Backward(c) != 0 :: Forward(Backward(c)) == c
  {
    EvalAgrees();
    ConverseEvalLow();
    ConverseEvalHigh();
    LowerZeroBlock();
  }

  /** `forward` is injective: its 128 code points are distinct. */
  lemma ForwardInjective()
    ensures forall a, b | 0x80 <= a <= 0xFF && 0x80 <= b <= 0xFF :: Forward(a) == Forward(b) ==> a == b
  {
    RoundTrip();
  }

  /** `backward` is the single-byte encoder of the WHATWG Encoding Standard
      (section 9.2) over this index: 0x80 plus the pointer of the code point,
      0 when there is none. */
  lemma BackwardIsPointer()
    ensures forall c: nat :: Backward(c) == SingleByte.Pointer(FORWARD_TABLE, c)
  {
    var t := Tables();
    TablesSafe();
    assert SingleByte.RoundTrips(t) by {
      forall b | 0x80 <= b <= 0xFF
        ensures SingleByte.Backward(t, SingleByte.Forward(t, b)) == b
      {
        RoundTrip();
        assert Forward(b) == SingleByte.Forward(t, b);
      }
    }
    assert SingleByte.ConverseHolds(t) by {
      forall c: nat | SingleByte.Backward(t, c) != 0
        ensures c != X && 0x80 <= SingleByte.Backward(t, c) <= 0xFF
        ensures SingleByte.Forward(t, SingleByte.Backward(t, c)) == c
      {
        Converse();
        assert Backward(c) == SingleByte.Backward(t, c);
        assert Forward(Backward(c)) == c;
      }
    }
    SingleByte.BackwardIsPointer(t);
  }

  /** Worked lookups. */
  lemma LookupExamples()
    ensures Forward(0xA1) == 260
    ensures Forward(0xA4) == 8364 == MAX_CODE_POINT
    ensures Backward(260) == 0xA1
    ensures Backward(0xA1) == 0
  {
    EvalAgrees();
  }

  /** Worked table entries. */
  lemma TableExamples()
    ensures |BACKWARD_TABLE_UPPER| == 262 && BACKWARD_TABLE_UPPER[8] == 160
    ensures |BACKWARD_TABLE_LOWER| == 352 && BACKWARD_TABLE_LOWER[164] == 161
  {
    EntriesAgree();
  }

  /** The C1 controls and NO-BREAK SPACE map to themselves. */
  lemma ForwardIdentityPrefix()
    ensures forall b | 0x80 <= b <= 0xA0 :: Forward(b) == b
  {
    EvalAgrees();
  }
}
