/** The tables fixed_tl and fixed_td of DuiLib/XUnzip.cpp, entry by entry, against the code of section 3.2.6 of RFC 1951. */
module FixedTables {
  import opened Bits
  import opened Canonical
  import opened HuftSpec
  import opened HuftBuild
  import opened HuftSpace
  import opened Deflate
  import opened DeflateStream
  import opened InflateSpec
  import opened InflateTokens

  const TL_0: seq<Huft> := [Huft(96, 7, 256), Huft(0, 8, 80), Huft(0, 8, 16), Huft(84, 8, 115), Huft(82, 7, 31), Huft(0, 8, 112), Huft(0, 8, 48), Huft(0, 9, 192)]
  const TL_1: seq<Huft> := [Huft(80, 7, 10), Huft(0, 8, 96), Huft(0, 8, 32), Huft(0, 9, 160), Huft(0, 8, 0), Huft(0, 8, 128), Huft(0, 8, 64), Huft(0, 9, 224)]
  const TL_2: seq<Huft> := [Huft(80, 7, 6), Huft(0, 8, 88), Huft(0, 8, 24), Huft(0, 9, 144), Huft(83, 7, 59), Huft(0, 8, 120), Huft(0, 8, 56), Huft(0, 9, 208)]
  const TL_3: seq<Huft> := [Huft(81, 7, 17), Huft(0, 8, 104), Huft(0, 8, 40), Huft(0, 9, 176), Huft(0, 8, 8), Huft(0, 8, 136), Huft(0, 8, 72), Huft(0, 9, 240)]
  const TL_4: seq<Huft> := [Huft(80, 7, 4), Huft(0, 8, 84), Huft(0, 8, 20), Huft(85, 8, 227), Huft(83, 7, 43), Huft(0, 8, 116), Huft(0, 8, 52), Huft(0, 9, 200)]
  const TL_5: seq<Huft> := [Huft(81, 7, 13), Huft(0, 8, 100), Huft(0, 8, 36), Huft(0, 9, 168), Huft(0, 8, 4), Huft(0, 8, 132), Huft(0, 8, 68), Huft(0, 9, 232)]
  const TL_6: seq<Huft> := [Huft(80, 7, 8), Huft(0, 8, 92), Huft(0, 8, 28), Huft(0, 9, 152), Huft(84, 7, 83), Huft(0, 8, 124), Huft(0, 8, 60), Huft(0, 9, 216)]
  const TL_7: seq<Huft> := [Huft(82, 7, 23), Huft(0, 8, 108), Huft(0, 8, 44), Huft(0, 9, 184), Huft(0, 8, 12), Huft(0, 8, 140), Huft(0, 8, 76), Huft(0, 9, 248)]
  const TL_8: seq<Huft> := [Huft(80, 7, 3), Huft(0, 8, 82), Huft(0, 8, 18), Huft(85, 8, 163), Huft(83, 7, 35), Huft(0, 8, 114), Huft(0, 8, 50), Huft(0, 9, 196)]
  const TL_9: seq<Huft> := [Huft(81, 7, 11), Huft(0, 8, 98), Huft(0, 8, 34), Huft(0, 9, 164), Huft(0, 8, 2), Huft(0, 8, 130), Huft(0, 8, 66), Huft(0, 9, 228)]
  const TL_10: seq<Huft> := [Huft(80, 7, 7), Huft(0, 8, 90), Huft(0, 8, 26), Huft(0, 9, 148), Huft(84, 7, 67), Huft(0, 8, 122), Huft(0, 8, 58), Huft(0, 9, 212)]
  const TL_11: seq<Huft> := [Huft(82, 7, 19), Huft(0, 8, 106), Huft(0, 8, 42), Huft(0, 9, 180), Huft(0, 8, 10), Huft(0, 8, 138), Huft(0, 8, 74), Huft(0, 9, 244)]
  const TL_12: seq<Huft> := [Huft(80, 7, 5), Huft(0, 8, 86), Huft(0, 8, 22), Huft(192, 8, 0), Huft(83, 7, 51), Huft(0, 8, 118), Huft(0, 8, 54), Huft(0, 9, 204)]
  const TL_13: seq<Huft> := [Huft(81, 7, 15), Huft(0, 8, 102), Huft(0, 8, 38), Huft(0, 9, 172), Huft(0, 8, 6), Huft(0, 8, 134), Huft(0, 8, 70), Huft(0, 9, 236)]
  const TL_14: seq<Huft> := [Huft(80, 7, 9), Huft(0, 8, 94), Huft(0, 8, 30), Huft(0, 9, 156), Huft(84, 7, 99), Huft(0, 8, 126), Huft(0, 8, 62), Huft(0, 9, 220)]
  const TL_15: seq<Huft> := [Huft(82, 7, 27), Huft(0, 8, 110), Huft(0, 8, 46), Huft(0, 9, 188), Huft(0, 8, 14), Huft(0, 8, 142), Huft(0, 8, 78), Huft(0, 9, 252)]
  const TL_16: seq<Huft> := [Huft(96, 7, 256), Huft(0, 8, 81), Huft(0, 8, 17), Huft(85, 8, 131), Huft(82, 7, 31), Huft(0, 8, 113), Huft(0, 8, 49), Huft(0, 9, 194)]
  const TL_17: seq<Huft> := [Huft(80, 7, 10), Huft(0, 8, 97), Huft(0, 8, 33), Huft(0, 9, 162), Huft(0, 8, 1), Huft(0, 8, 129), Huft(0, 8, 65), Huft(0, 9, 226)]
  const TL_18: seq<Huft> := [Huft(80, 7, 6), Huft(0, 8, 89), Huft(0, 8, 25), Huft(0, 9, 146), Huft(83, 7, 59), Huft(0, 8, 121), Huft(0, 8, 57), Huft(0, 9, 210)]
  const TL_19: seq<Huft> := [Huft(81, 7, 17), Huft(0, 8, 105), Huft(0, 8, 41), Huft(0, 9, 178), Huft(0, 8, 9), Huft(0, 8, 137), Huft(0, 8, 73), Huft(0, 9, 242)]
  const TL_20: seq<Huft> := [Huft(80, 7, 4), Huft(0, 8, 85), Huft(0, 8, 21), Huft(80, 8, 258), Huft(83, 7, 43), Huft(0, 8, 117), Huft(0, 8, 53), Huft(0, 9, 202)]
  const TL_21: seq<Huft> := [Huft(81, 7, 13), Huft(0, 8, 101), Huft(0, 8, 37), Huft(0, 9, 170), Huft(0, 8, 5), Huft(0, 8, 133), Huft(0, 8, 69), Huft(0, 9, 234)]
  const TL_22: seq<Huft> := [Huft(80, 7, 8), Huft(0, 8, 93), Huft(0, 8, 29), Huft(0, 9, 154), Huft(84, 7, 83), Huft(0, 8, 125), Huft(0, 8, 61), Huft(0, 9, 218)]
  const TL_23: seq<Huft> := [Huft(82, 7, 23), Huft(0, 8, 109), Huft(0, 8, 45), Huft(0, 9, 186), Huft(0, 8, 13), Huft(0, 8, 141), Huft(0, 8, 77), Huft(0, 9, 250)]
  const TL_24: seq<Huft> := [Huft(80, 7, 3), Huft(0, 8, 83), Huft(0, 8, 19), Huft(85, 8, 195), Huft(83, 7, 35), Huft(0, 8, 115), Huft(0, 8, 51), Huft(0, 9, 198)]
  const TL_25: seq<Huft> := [Huft(81, 7, 11), Huft(0, 8, 99), Huft(0, 8, 35), Huft(0, 9, 166), Huft(0, 8, 3), Huft(0, 8, 131), Huft(0, 8, 67), Huft(0, 9, 230)]
  const TL_26: seq<Huft> := [Huft(80, 7, 7), Huft(0, 8, 91), Huft(0, 8, 27), Huft(0, 9, 150), Huft(84, 7, 67), Huft(0, 8, 123), Huft(0, 8, 59), Huft(0, 9, 214)]
  const TL_27: seq<Huft> := [Huft(82, 7, 19), Huft(0, 8, 107), Huft(0, 8, 43), Huft(0, 9, 182), Huft(0, 8, 11), Huft(0, 8, 139), Huft(0, 8, 75), Huft(0, 9, 246)]
  const TL_28: seq<Huft> := [Huft(80, 7, 5), Huft(0, 8, 87), Huft(0, 8, 23), Huft(192, 8, 0), Huft(83, 7, 51), Huft(0, 8, 119), Huft(0, 8, 55), Huft(0, 9, 206)]
  const TL_29: seq<Huft> := [Huft(81, 7, 15), Huft(0, 8, 103), Huft(0, 8, 39), Huft(0, 9, 174), Huft(0, 8, 7), Huft(0, 8, 135), Huft(0, 8, 71), Huft(0, 9, 238)]
  const TL_30: seq<Huft> := [Huft(80, 7, 9), Huft(0, 8, 95), Huft(0, 8, 31), Huft(0, 9, 158), Huft(84, 7, 99), Huft(0, 8, 127), Huft(0, 8, 63), Huft(0, 9, 222)]
  const TL_31: seq<Huft> := [Huft(82, 7, 27), Huft(0, 8, 111), Huft(0, 8, 47), Huft(0, 9, 190), Huft(0, 8, 15), Huft(0, 8, 143), Huft(0, 8, 79), Huft(0, 9, 254)]
  const TL_32: seq<Huft> := [Huft(96, 7, 256), Huft(0, 8, 80), Huft(0, 8, 16), Huft(84, 8, 115), Huft(82, 7, 31), Huft(0, 8, 112), Huft(0, 8, 48), Huft(0, 9, 193)]
  const TL_33: seq<Huft> := [Huft(80, 7, 10), Huft(0, 8, 96), Huft(0, 8, 32), Huft(0, 9, 161), Huft(0, 8, 0), Huft(0, 8, 128), Huft(0, 8, 64), Huft(0, 9, 225)]
  const TL_34: seq<Huft> := [Huft(80, 7, 6), Huft(0, 8, 88), Huft(0, 8, 24), Huft(0, 9, 145), Huft(83, 7, 59), Huft(0, 8, 120), Huft(0, 8, 56), Huft(0, 9, 209)]
  const TL_35: seq<Huft> := [Huft(81, 7, 17), Huft(0, 8, 104), Huft(0, 8, 40), Huft(0, 9, 177), Huft(0, 8, 8), Huft(0, 8, 136), Huft(0, 8, 72), Huft(0, 9, 241)]
  const TL_36: seq<Huft> := [Huft(80, 7, 4), Huft(0, 8, 84), Huft(0, 8, 20), Huft(85, 8, 227), Huft(83, 7, 43), Huft(0, 8, 116), Huft(0, 8, 52), Huft(0, 9, 201)]
  const TL_37: seq<Huft> := [Huft(81, 7, 13), Huft(0, 8, 100), Huft(0, 8, 36), Huft(0, 9, 169), Huft(0, 8, 4), Huft(0, 8, 132), Huft(0, 8, 68), Huft(0, 9, 233)]
  const TL_38: seq<Huft> := [Huft(80, 7, 8), Huft(0, 8, 92), Huft(0, 8, 28), Huft(0, 9, 153), Huft(84, 7, 83), Huft(0, 8, 124), Huft(0, 8, 60), Huft(0, 9, 217)]
  const TL_39: seq<Huft> := [Huft(82, 7, 23), Huft(0, 8, 108), Huft(0, 8, 44), Huft(0, 9, 185), Huft(0, 8, 12), Huft(0, 8, 140), Huft(0, 8, 76), Huft(0, 9, 249)]
  const TL_40: seq<Huft> := [Huft(80, 7, 3), Huft(0, 8, 82), Huft(0, 8, 18), Huft(85, 8, 163), Huft(83, 7, 35), Huft(0, 8, 114), Huft(0, 8, 50), Huft(0, 9, 197)]
  const TL_41: seq<Huft> := [Huft(81, 7, 11), Huft(0, 8, 98), Huft(0, 8, 34), Huft(0, 9, 165), Huft(0, 8, 2), Huft(0, 8, 130), Huft(0, 8, 66), Huft(0, 9, 229)]
  const TL_42: seq<Huft> := [Huft(80, 7, 7), Huft(0, 8, 90), Huft(0, 8, 26), Huft(0, 9, 149), Huft(84, 7, 67), Huft(0, 8, 122), Huft(0, 8, 58), Huft(0, 9, 213)]
  const TL_43: seq<Huft> := [Huft(82, 7, 19), Huft(0, 8, 106), Huft(0, 8, 42), Huft(0, 9, 181), Huft(0, 8, 10), Huft(0, 8, 138), Huft(0, 8, 74), Huft(0, 9, 245)]
  const TL_44: seq<Huft> := [Huft(80, 7, 5), Huft(0, 8, 86), Huft(0, 8, 22), Huft(192, 8, 0), Huft(83, 7, 51), Huft(0, 8, 118), Huft(0, 8, 54), Huft(0, 9, 205)]
  const TL_45: seq<Huft> := [Huft(81, 7, 15), Huft(0, 8, 102), Huft(0, 8, 38), Huft(0, 9, 173), Huft(0, 8, 6), Huft(0, 8, 134), Huft(0, 8, 70), Huft(0, 9, 237)]
  const TL_46: seq<Huft> := [Huft(80, 7, 9), Huft(0, 8, 94), Huft(0, 8, 30), Huft(0, 9, 157), Huft(84, 7, 99), Huft(0, 8, 126), Huft(0, 8, 62), Huft(0, 9, 221)]
  const TL_47: seq<Huft> := [Huft(82, 7, 27), Huft(0, 8, 110), Huft(0, 8, 46), Huft(0, 9, 189), Huft(0, 8, 14), Huft(0, 8, 142), Huft(0, 8, 78), Huft(0, 9, 253)]
  const TL_48: seq<Huft> := [Huft(96, 7, 256), Huft(0, 8, 81), Huft(0, 8, 17), Huft(85, 8, 131), Huft(82, 7, 31), Huft(0, 8, 113), Huft(0, 8, 49), Huft(0, 9, 195)]
  const TL_49: seq<Huft> := [Huft(80, 7, 10), Huft(0, 8, 97), Huft(0, 8, 33), Huft(0, 9, 163), Huft(0, 8, 1), Huft(0, 8, 129), Huft(0, 8, 65), Huft(0, 9, 227)]
  const TL_50: seq<Huft> := [Huft(80, 7, 6), Huft(0, 8, 89), Huft(0, 8, 25), Huft(0, 9, 147), Huft(83, 7, 59), Huft(0, 8, 121), Huft(0, 8, 57), Huft(0, 9, 211)]
  const TL_51: seq<Huft> := [Huft(81, 7, 17), Huft(0, 8, 105), Huft(0, 8, 41), Huft(0, 9, 179), Huft(0, 8, 9), Huft(0, 8, 137), Huft(0, 8, 73), Huft(0, 9, 243)]
  const TL_52: seq<Huft> := [Huft(80, 7, 4), Huft(0, 8, 85), Huft(0, 8, 21), Huft(80, 8, 258), Huft(83, 7, 43), Huft(0, 8, 117), Huft(0, 8, 53), Huft(0, 9, 203)]
  const TL_53: seq<Huft> := [Huft(81, 7, 13), Huft(0, 8, 101), Huft(0, 8, 37), Huft(0, 9, 171), Huft(0, 8, 5), Huft(0, 8, 133), Huft(0, 8, 69), Huft(0, 9, 235)]
  const TL_54: seq<Huft> := [Huft(80, 7, 8), Huft(0, 8, 93), Huft(0, 8, 29), Huft(0, 9, 155), Huft(84, 7, 83), Huft(0, 8, 125), Huft(0, 8, 61), Huft(0, 9, 219)]
  const TL_55: seq<Huft> := [Huft(82, 7, 23), Huft(0, 8, 109), Huft(0, 8, 45), Huft(0, 9, 187), Huft(0, 8, 13), Huft(0, 8, 141), Huft(0, 8, 77), Huft(0, 9, 251)]
  const TL_56: seq<Huft> := [Huft(80, 7, 3), Huft(0, 8, 83), Huft(0, 8, 19), Huft(85, 8, 195), Huft(83, 7, 35), Huft(0, 8, 115), Huft(0, 8, 51), Huft(0, 9, 199)]
  const TL_57: seq<Huft> := [Huft(81, 7, 11), Huft(0, 8, 99), Huft(0, 8, 35), Huft(0, 9, 167), Huft(0, 8, 3), Huft(0, 8, 131), Huft(0, 8, 67), Huft(0, 9, 231)]
  const TL_58: seq<Huft> := [Huft(80, 7, 7), Huft(0, 8, 91), Huft(0, 8, 27), Huft(0, 9, 151), Huft(84, 7, 67), Huft(0, 8, 123), Huft(0, 8, 59), Huft(0, 9, 215)]
  const TL_59: seq<Huft> := [Huft(82, 7, 19), Huft(0, 8, 107), Huft(0, 8, 43), Huft(0, 9, 183), Huft(0, 8, 11), Huft(0, 8, 139), Huft(0, 8, 75), Huft(0, 9, 247)]
  const TL_60: seq<Huft> := [Huft(80, 7, 5), Huft(0, 8, 87), Huft(0, 8, 23), Huft(192, 8, 0), Huft(83, 7, 51), Huft(0, 8, 119), Huft(0, 8, 55), Huft(0, 9, 207)]
  const TL_61: seq<Huft> := [Huft(81, 7, 15), Huft(0, 8, 103), Huft(0, 8, 39), Huft(0, 9, 175), Huft(0, 8, 7), Huft(0, 8, 135), Huft(0, 8, 71), Huft(0, 9, 239)]
  const TL_62: seq<Huft> := [Huft(80, 7, 9), Huft(0, 8, 95), Huft(0, 8, 31), Huft(0, 9, 159), Huft(84, 7, 99), Huft(0, 8, 127), Huft(0, 8, 63), Huft(0, 9, 223)]
  const TL_63: seq<Huft> := [Huft(82, 7, 27), Huft(0, 8, 111), Huft(0, 8, 47), Huft(0, 9, 191), Huft(0, 8, 15), Huft(0, 8, 143), Huft(0, 8, 79), Huft(0, 9, 255)]
  const TD_0: seq<Huft> := [Huft(80, 5, 1), Huft(87, 5, 257), Huft(83, 5, 17), Huft(91, 5, 4097), Huft(81, 5, 5), Huft(89, 5, 1025), Huft(85, 5, 65), Huft(93, 5, 16385)]
  const TD_1: seq<Huft> := [Huft(80, 5, 3), Huft(88, 5, 513), Huft(84, 5, 33), Huft(92, 5, 8193), Huft(82, 5, 9), Huft(90, 5, 2049), Huft(86, 5, 129), Huft(192, 5, 24577)]
  const TD_2: seq<Huft> := [Huft(80, 5, 2), Huft(87, 5, 385), Huft(83, 5, 25), Huft(91, 5, 6145), Huft(81, 5, 7), Huft(89, 5, 1537), Huft(85, 5, 97), Huft(93, 5, 24577)]
  const TD_3: seq<Huft> := [Huft(80, 5, 4), Huft(88, 5, 769), Huft(84, 5, 49), Huft(92, 5, 12289), Huft(82, 5, 13), Huft(90, 5, 3073), Huft(86, 5, 193), Huft(192, 5, 24577)]

  function TlRow(r: nat): (row: seq<Huft>)
    requires r < 64
    ensures |row| == 8
  {
    if r == 0 then TL_0
    else if r == 1 then TL_1
    else if r == 2 then TL_2
    else if r == 3 then TL_3
    else if r == 4 then TL_4
    else if r == 5 then TL_5
    else if r == 6 then TL_6
    else if r == 7 then TL_7
    else if r == 8 then TL_8
    else if r == 9 then TL_9
    else if r == 10 then TL_10
    else if r == 11 then TL_11
    else if r == 12 then TL_12
    else if r == 13 then TL_13
    else if r == 14 then TL_14
    else if r == 15 then TL_15
    else if r == 16 then TL_16
    else if r == 17 then TL_17
    else if r == 18 then TL_18
    else if r == 19 then TL_19
    else if r == 20 then TL_20
    else if r == 21 then TL_21
    else if r == 22 then TL_22
    else if r == 23 then TL_23
    else if r == 24 then TL_24
    else if r == 25 then TL_25
    else if r == 26 then TL_26
    else if r == 27 then TL_27
    else if r == 28 then TL_28
    else if r == 29 then TL_29
    else if r == 30 then TL_30
    else if r == 31 then TL_31
    else if r == 32 then TL_32
    else if r == 33 then TL_33
    else if r == 34 then TL_34
    else if r == 35 then TL_35
    else if r == 36 then TL_36
    else if r == 37 then TL_37
    else if r == 38 then TL_38
    else if r == 39 then TL_39
    else if r == 40 then TL_40
    else if r == 41 then TL_41
    else if r == 42 then TL_42
    else if r == 43 then TL_43
    else if r == 44 then TL_44
    else if r == 45 then TL_45
    else if r == 46 then TL_46
    else if r == 47 then TL_47
    else if r == 48 then TL_48
    else if r == 49 then TL_49
    else if r == 50 then TL_50
    else if r == 51 then TL_51
    else if r == 52 then TL_52
    else if r == 53 then TL_53
    else if r == 54 then TL_54
    else if r == 55 then TL_55
    else if r == 56 then TL_56
    else if r == 57 then TL_57
    else if r == 58 then TL_58
    else if r == 59 then TL_59
    else if r == 60 then TL_60
    else if r == 61 then TL_61
    else if r == 62 then TL_62
    else TL_63
  }

  // ---------------------------------------------------------------- the fixed codes

  function FixedLen(i: nat): nat
  {
    if i <= 143 then 8 else if i <= 255 then 9 else if i <= 279 then 7 else 8
  }

  /** The symbol whose fixed code the nine bits c begin with. */
  function FixedSym(c: nat): (i: nat)
    requires c < 512
    ensures i < 288
  {
    if c < 96 then 256 + c / 4 else if c < 384 then c / 2 - 48 else if c < 400 then 88 + c / 2 else c - 256
  }

  lemma {:induction false} Halves(b: nat, n: nat)
    requires 7 <= n <= 8
    ensures 2 * Rev(b, n) <= Rev(b, n + 1) <= 2 * Rev(b, n) + 1 && Rev(b, 8) < 256 && Rev(b, 9) < 512
  {
    Pow2Values();
  }

  /** How many of the first i lengths are k. */
  function FixedCount(i: nat, k: nat): nat
    requires i <= 288
  {
    if k == 8 then (if i <= 144 then i else if i <= 280 then 144 else i - 136)
    else if k == 9 then (if i <= 144 then 0 else if i <= 256 then i - 144 else 112)
    else if k == 7 then (if i <= 256 then 0 else if i <= 280 then i - 256 else 24)
    else 0
  }

  lemma {:induction false} CountFixed(i: nat, k: nat)
    requires i <= 288
    ensures Count(FixedLengths()[..i], k) == FixedCount(i, k)
  {
    if i > 0 {
      CountFixed(i - 1, k);
      CountNext(FixedLengths(), i - 1, k);
    }
  }

  lemma {:induction false} NextFixed()
    ensures NextCode(FixedLengths(), 7) == 0 && NextCode(FixedLengths(), 8) == 48 && NextCode(FixedLengths(), 9) == 400
  {
    var f := FixedLengths();
    assert f[..288] == f;
    forall k: nat | k <= 8 ensures Count(f, k) == FixedCount(288, k) {
      CountFixed(288, k);
    }
    hide FixedLengths, Count;
    assert NextCode(f, 1) == 0;
    assert NextCode(f, 2) == 0;
    assert NextCode(f, 3) == 0;
    assert NextCode(f, 4) == 0;
    assert NextCode(f, 5) == 0;
    assert NextCode(f, 6) == 0;
    assert NextCode(f, 7) == 0;
    assert NextCode(f, 8) == 48;
  }

  /** The table of section 3.2.6 of RFC 1951, as it follows from the lengths. */
  lemma {:induction false} FixedCode(i: nat)
    requires i < 288
    ensures FixedLengths()[i] == FixedLen(i)
    ensures Code(FixedLengths(), i) ==
            if i <= 143 then 48 + i else if i <= 255 then 256 + i else if i <= 279 then i - 256 else i - 88
  {
    NextFixed();
    CountFixed(i, FixedLen(i));
  }

  lemma {:induction false} FixedReads(b: nat)
    ensures Rev(b, 9) < 512 && Reads(FixedLengths(), FixedSym(Rev(b, 9)), b)
  {
    Halves(b, 7);
    Halves(b, 8);
    FixedCode(FixedSym(Rev(b, 9)));
  }

  lemma {:induction false} FixedDistCode(i: nat)
    requires i < 32
    ensures Code(FixedDistances(), i) == i
  {
    var f := FixedDistances();
    CountDist(i, 5);
    assert f[..32] == f;
    forall k: nat | k <= 4 ensures Count(f, k) == 0 {
      CountDist(32, k);
    }
    hide FixedDistances, Count;
    assert NextCode(f, 1) == 0;
    assert NextCode(f, 2) == 0;
    assert NextCode(f, 3) == 0;
    assert NextCode(f, 4) == 0;
    assert NextCode(f, 5) == 0;
  }

  lemma {:induction false} CountDist(i: nat, k: nat)
    requires i <= 32
    ensures Count(FixedDistances()[..i], k) == if k == 5 then i else 0
  {
    if i > 0 {
      CountDist(i - 1, k);
      CountNext(FixedDistances(), i - 1, k);
    }
  }

  // ---------------------------------------------------------------- the entries

  /** The entry for the nine code bits c. */
  predicate LitOk(c: nat, e: Huft)
    requires c < 512
  {
    var i := FixedSym(c);
    e.bits == FixedLen(i)
    && if i < 256 then e.exop == 0 && e.base == i
       else if i == 256 then e.exop == 96
       else if i < 286 then e.exop == 80 + LExtra(i - 257) && e.base == LBase(i - 257)
       else e.exop == INVALID
  }

  /** The entry for the five code bits i. */
  predicate DistOk(i: nat, e: Huft)
    requires i < 32
  {
    e.bits == 5
    && if i < 30 then e.exop == 80 + DExtra(i) && e.base == DBase(i) else e.exop == INVALID
  }

  /** Eight entries in a row: their code bits end in the six bits k. */
  predicate RowOk(row: seq<Huft>, k: nat)
    requires k < 64
  {
    |row| == 8
    && LitOk(0 + k, row[0]) && LitOk(256 + k, row[1]) && LitOk(128 + k, row[2]) && LitOk(384 + k, row[3])
    && LitOk(64 + k, row[4]) && LitOk(320 + k, row[5]) && LitOk(192 + k, row[6]) && LitOk(448 + k, row[7])
  }


  lemma {:induction false} Row0() ensures RowOk(TL_0, 0) {}
  lemma {:induction false} Row1() ensures RowOk(TL_1, 32) {}
  lemma {:induction false} Row2() ensures RowOk(TL_2, 16) {}
  lemma {:induction false} Row3() ensures RowOk(TL_3, 48) {}
  lemma {:induction false} Row4() ensures RowOk(TL_4, 8) {}
  lemma {:induction false} Row5() ensures RowOk(TL_5, 40) {}
  lemma {:induction false} Row6() ensures RowOk(TL_6, 24) {}
  lemma {:induction false} Row7() ensures RowOk(TL_7, 56) {}
  lemma {:induction false} Row8() ensures RowOk(TL_8, 4) {}
  lemma {:induction false} Row9() ensures RowOk(TL_9, 36) {}
  lemma {:induction false} Row10() ensures RowOk(TL_10, 20) {}
  lemma {:induction false} Row11() ensures RowOk(TL_11, 52) {}
  lemma {:induction false} Row12() ensures RowOk(TL_12, 12) {}
  lemma {:induction false} Row13() ensures RowOk(TL_13, 44) {}
  lemma {:induction false} Row14() ensures RowOk(TL_14, 28) {}
  lemma {:induction false} Row15() ensures RowOk(TL_15, 60) {}
  lemma {:induction false} Row16() ensures RowOk(TL_16, 2) {}
  lemma {:induction false} Row17() ensures RowOk(TL_17, 34) {}
  lemma {:induction false} Row18() ensures RowOk(TL_18, 18) {}
  lemma {:induction false} Row19() ensures RowOk(TL_19, 50) {}
  lemma {:induction false} Row20() ensures RowOk(TL_20, 10) {}
  lemma {:induction false} Row21() ensures RowOk(TL_21, 42) {}
  lemma {:induction false} Row22() ensures RowOk(TL_22, 26) {}
  lemma {:induction false} Row23() ensures RowOk(TL_23, 58) {}
  lemma {:induction false} Row24() ensures RowOk(TL_24, 6) {}
  lemma {:induction false} Row25() ensures RowOk(TL_25, 38) {}
  lemma {:induction false} Row26() ensures RowOk(TL_26, 22) {}
  lemma {:induction false} Row27() ensures RowOk(TL_27, 54) {}
  lemma {:induction false} Row28() ensures RowOk(TL_28, 14) {}
  lemma {:induction false} Row29() ensures RowOk(TL_29, 46) {}
  lemma {:induction false} Row30() ensures RowOk(TL_30, 30) {}
  lemma {:induction false} Row31() ensures RowOk(TL_31, 62) {}
  lemma {:induction false} Row32() ensures RowOk(TL_32, 1) {}
  lemma {:induction false} Row33() ensures RowOk(TL_33, 33) {}
  lemma {:induction false} Row34() ensures RowOk(TL_34, 17) {}
  lemma {:induction false} Row35() ensures RowOk(TL_35, 49) {}
  lemma {:induction false} Row36() ensures RowOk(TL_36, 9) {}
  lemma {:induction false} Row37() ensures RowOk(TL_37, 41) {}
  lemma {:induction false} Row38() ensures RowOk(TL_38, 25) {}
  lemma {:induction false} Row39() ensures RowOk(TL_39, 57) {}
  lemma {:induction false} Row40() ensures RowOk(TL_40, 5) {}
  lemma {:induction false} Row41() ensures RowOk(TL_41, 37) {}
  lemma {:induction false} Row42() ensures RowOk(TL_42, 21) {}
  lemma {:induction false} Row43() ensures RowOk(TL_43, 53) {}
  lemma {:induction false} Row44() ensures RowOk(TL_44, 13) {}
  lemma {:induction false} Row45() ensures RowOk(TL_45, 45) {}
  lemma {:induction false} Row46() ensures RowOk(TL_46, 29) {}
  lemma {:induction false} Row47() ensures RowOk(TL_47, 61) {}
  lemma {:induction false} Row48() ensures RowOk(TL_48, 3) {}
  lemma {:induction false} Row49() ensures RowOk(TL_49, 35) {}
  lemma {:induction false} Row50() ensures RowOk(TL_50, 19) {}
  lemma {:induction false} Row51() ensures RowOk(TL_51, 51) {}
  lemma {:induction false} Row52() ensures RowOk(TL_52, 11) {}
  lemma {:induction false} Row53() ensures RowOk(TL_53, 43) {}
  lemma {:induction false} Row54() ensures RowOk(TL_54, 27) {}
  lemma {:induction false} Row55() ensures RowOk(TL_55, 59) {}
  lemma {:induction false} Row56() ensures RowOk(TL_56, 7) {}
  lemma {:induction false} Row57() ensures RowOk(TL_57, 39) {}
  lemma {:induction false} Row58() ensures RowOk(TL_58, 23) {}
  lemma {:induction false} Row59() ensures RowOk(TL_59, 55) {}
  lemma {:induction false} Row60() ensures RowOk(TL_60, 15) {}
  lemma {:induction false} Row61() ensures RowOk(TL_61, 47) {}
  lemma {:induction false} Row62() ensures RowOk(TL_62, 31) {}
  lemma {:induction false} Row63() ensures RowOk(TL_63, 63) {}

  lemma {:induction false} RevStep(i: nat, n: nat)
    ensures Rev(i, n + 1) == (if i % 2 == 1 then Pow2(n) else 0) + Rev(i / 2, n)
  {
    RevPrepend(i % 2, i / 2, n);
  }

  function Flip3(i: nat): nat
  {
    (if i % 2 == 1 then 4 else 0) + (if i / 2 % 2 == 1 then 2 else 0) + i / 2 / 2
  }

  lemma {:induction false} RevThree(i: nat)
    requires i < 8
    ensures Rev(i, 3) == Flip3(i)
  {
    var j: nat := i / 2;
    var k: nat := j / 2;
    RevStep(i, 2);
    RevStep(j, 1);
    RevStep(k, 0);
    assert Pow2(2) == 4 && Pow2(1) == 2 && Pow2(0) == 1 && Rev(k / 2, 0) == 0;
    hide Rev, Pow2;
  }

  lemma {:induction false} RevTwo(j: nat)
    requires j < 4
    ensures Rev(j, 2) == if j % 2 == 1 then 2 + j / 2 else j / 2
  {
    RevStep(j, 1);
    RevStep(j / 2, 0);
    assert Pow2(1) == 2 && Pow2(0) == 1 && Rev(j / 2 / 2, 0) == 0;
    hide Rev, Pow2;
  }

  lemma {:induction false} ShlSmall(x: nat)
    ensures Shl(x, 2) == 4 * x && Shl(x, 3) == 8 * x
  {
    assert Shl(x, 1) == 2 * Shl(x, 0);
    assert Shl(x, 2) == 2 * Shl(x, 1);
  }

  lemma {:induction false} RevFive(i: nat)
    requires i < 32
    ensures Rev(i, 5) == 4 * Flip3(i % 8) + if i / 8 % 2 == 1 then 2 + i / 8 / 2 else i / 8 / 2
  {
    hide Rev, Low, Shl, Shr, Pow2, Flip3;
    RevLow(i, 3, 3);
    RevAppend(i, 3, 2);
    ThreeAndRest(i);
    RevThree(i % 8);
    RevTwo(i / 8);
    ShlSmall(Rev(i, 3));
  }

  lemma {:induction false} RevSix(i: nat)
    requires i < 64
    ensures Rev(i, 6) == 8 * Flip3(i % 8) + Flip3(i / 8)
  {
    hide Rev, Low, Shl, Shr, Pow2, Flip3;
    RevLow(i, 3, 3);
    RevAppend(i, 3, 3);
    ThreeAndRest(i);
    RevThree(i % 8);
    RevThree(i / 8);
    ShlSmall(Rev(i, 3));
  }

  lemma {:induction false} ThreeAndRest(a: nat)
    ensures Low(a, 3) == a % 8 && Shr(a, 3) == a / 8
  {
    var h: nat := a / 2;
    var k: nat := h / 2;
    assert Low(a, 3) == a % 2 + 2 * Low(h, 2) && Low(h, 2) == h % 2 + 2 * Low(k, 1) && Low(k, 1) == k % 2;
    assert Shr(a, 3) == Shr(h, 2) == Shr(k, 1) == k / 2;
    hide Low, Shr;
  }


  lemma {:induction false} Rows0(j: nat)
    requires j < 8
    ensures Flip3(j) < 8 && RowOk(TlRow(0 + j), 8 * Flip3(j) + 0)
  {
    hide RowOk,
      TL_0, TL_1, TL_2, TL_3, TL_4, TL_5, TL_6, TL_7, TL_8, TL_9, TL_10, TL_11, TL_12, TL_13, TL_14, TL_15,
      TL_16, TL_17, TL_18, TL_19, TL_20, TL_21, TL_22, TL_23, TL_24, TL_25, TL_26, TL_27, TL_28, TL_29, TL_30, TL_31,
      TL_32, TL_33, TL_34, TL_35, TL_36, TL_37, TL_38, TL_39, TL_40, TL_41, TL_42, TL_43, TL_44, TL_45, TL_46, TL_47,
      TL_48, TL_49, TL_50, TL_51, TL_52, TL_53, TL_54, TL_55, TL_56, TL_57, TL_58, TL_59, TL_60, TL_61, TL_62, TL_63;
    match j {
      case 0 => Row0();
      case 1 => Row1();
      case 2 => Row2();
      case 3 => Row3();
      case 4 => Row4();
      case 5 => Row5();
      case 6 => Row6();
      case 7 => Row7();
    }
  }

  lemma {:induction false} Rows1(j: nat)
    requires j < 8
    ensures Flip3(j) < 8 && RowOk(TlRow(8 + j), 8 * Flip3(j) + 4)
  {
    hide RowOk,
      TL_0, TL_1, TL_2, TL_3, TL_4, TL_5, TL_6, TL_7, TL_8, TL_9, TL_10, TL_11, TL_12, TL_13, TL_14, TL_15,
      TL_16, TL_17, TL_18, TL_19, TL_20, TL_21, TL_22, TL_23, TL_24, TL_25, TL_26, TL_27, TL_28, TL_29, TL_30, TL_31,
      TL_32, TL_33, TL_34, TL_35, TL_36, TL_37, TL_38, TL_39, TL_40, TL_41, TL_42, TL_43, TL_44, TL_45, TL_46, TL_47,
      TL_48, TL_49, TL_50, TL_51, TL_52, TL_53, TL_54, TL_55, TL_56, TL_57, TL_58, TL_59, TL_60, TL_61, TL_62, TL_63;
    match j {
      case 0 => Row8();
      case 1 => Row9();
      case 2 => Row10();
      case 3 => Row11();
      case 4 => Row12();
      case 5 => Row13();
      case 6 => Row14();
      case 7 => Row15();
    }
  }

  lemma {:induction false} Rows2(j: nat)
    requires j < 8
    ensures Flip3(j) < 8 && RowOk(TlRow(16 + j), 8 * Flip3(j) + 2)
  {
    hide RowOk,
      TL_0, TL_1, TL_2, TL_3, TL_4, TL_5, TL_6, TL_7, TL_8, TL_9, TL_10, TL_11, TL_12, TL_13, TL_14, TL_15,
      TL_16, TL_17, TL_18, TL_19, TL_20, TL_21, TL_22, TL_23, TL_24, TL_25, TL_26, TL_27, TL_28, TL_29, TL_30, TL_31,
      TL_32, TL_33, TL_34, TL_35, TL_36, TL_37, TL_38, TL_39, TL_40, TL_41, TL_42, TL_43, TL_44, TL_45, TL_46, TL_47,
      TL_48, TL_49, TL_50, TL_51, TL_52, TL_53, TL_54, TL_55, TL_56, TL_57, TL_58, TL_59, TL_60, TL_61, TL_62, TL_63;
    match j {
      case 0 => Row16();
      case 1 => Row17();
      case 2 => Row18();
      case 3 => Row19();
      case 4 => Row20();
      case 5 => Row21();
      case 6 => Row22();
      case 7 => Row23();
    }
  }

  lemma {:induction false} Rows3(j: nat)
    requires j < 8
    ensures Flip3(j) < 8 && RowOk(TlRow(24 + j), 8 * Flip3(j) + 6)
  {
    hide RowOk,
      TL_0, TL_1, TL_2, TL_3, TL_4, TL_5, TL_6, TL_7, TL_8, TL_9, TL_10, TL_11, TL_12, TL_13, TL_14, TL_15,
      TL_16, TL_17, TL_18, TL_19, TL_20, TL_21, TL_22, TL_23, TL_24, TL_25, TL_26, TL_27, TL_28, TL_29, TL_30, TL_31,
      TL_32, TL_33, TL_34, TL_35, TL_36, TL_37, TL_38, TL_39, TL_40, TL_41, TL_42, TL_43, TL_44, TL_45, TL_46, TL_47,
      TL_48, TL_49, TL_50, TL_51, TL_52, TL_53, TL_54, TL_55, TL_56, TL_57, TL_58, TL_59, TL_60, TL_61, TL_62, TL_63;
    match j {
      case 0 => Row24();
      case 1 => Row25();
      case 2 => Row26();
      case 3 => Row27();
      case 4 => Row28();
      case 5 => Row29();
      case 6 => Row30();
      case 7 => Row31();
    }
  }

  lemma {:induction false} Rows4(j: nat)
    requires j < 8
    ensures Flip3(j) < 8 && RowOk(TlRow(32 + j), 8 * Flip3(j) + 1)
  {
    hide RowOk,
      TL_0, TL_1, TL_2, TL_3, TL_4, TL_5, TL_6, TL_7, TL_8, TL_9, TL_10, TL_11, TL_12, TL_13, TL_14, TL_15,
      TL_16, TL_17, TL_18, TL_19, TL_20, TL_21, TL_22, TL_23, TL_24, TL_25, TL_26, TL_27, TL_28, TL_29, TL_30, TL_31,
      TL_32, TL_33, TL_34, TL_35, TL_36, TL_37, TL_38, TL_39, TL_40, TL_41, TL_42, TL_43, TL_44, TL_45, TL_46, TL_47,
      TL_48, TL_49, TL_50, TL_51, TL_52, TL_53, TL_54, TL_55, TL_56, TL_57, TL_58, TL_59, TL_60, TL_61, TL_62, TL_63;
    match j {
      case 0 => Row32();
      case 1 => Row33();
      case 2 => Row34();
      case 3 => Row35();
      case 4 => Row36();
      case 5 => Row37();
      case 6 => Row38();
      case 7 => Row39();
    }
  }

  lemma {:induction false} Rows5(j: nat)
    requires j < 8
    ensures Flip3(j) < 8 && RowOk(TlRow(40 + j), 8 * Flip3(j) + 5)
  {
    hide RowOk,
      TL_0, TL_1, TL_2, TL_3, TL_4, TL_5, TL_6, TL_7, TL_8, TL_9, TL_10, TL_11, TL_12, TL_13, TL_14, TL_15,
      TL_16, TL_17, TL_18, TL_19, TL_20, TL_21, TL_22, TL_23, TL_24, TL_25, TL_26, TL_27, TL_28, TL_29, TL_30, TL_31,
      TL_32, TL_33, TL_34, TL_35, TL_36, TL_37, TL_38, TL_39, TL_40, TL_41, TL_42, TL_43, TL_44, TL_45, TL_46, TL_47,
      TL_48, TL_49, TL_50, TL_51, TL_52, TL_53, TL_54, TL_55, TL_56, TL_57, TL_58, TL_59, TL_60, TL_61, TL_62, TL_63;
    match j {
      case 0 => Row40();
      case 1 => Row41();
      case 2 => Row42();
      case 3 => Row43();
      case 4 => Row44();
      case 5 => Row45();
      case 6 => Row46();
      case 7 => Row47();
    }
  }

  lemma {:induction false} Rows6(j: nat)
    requires j < 8
    ensures Flip3(j) < 8 && RowOk(TlRow(48 + j), 8 * Flip3(j) + 3)
  {
    hide RowOk,
      TL_0, TL_1, TL_2, TL_3, TL_4, TL_5, TL_6, TL_7, TL_8, TL_9, TL_10, TL_11, TL_12, TL_13, TL_14, TL_15,
      TL_16, TL_17, TL_18, TL_19, TL_20, TL_21, TL_22, TL_23, TL_24, TL_25, TL_26, TL_27, TL_28, TL_29, TL_30, TL_31,
      TL_32, TL_33, TL_34, TL_35, TL_36, TL_37, TL_38, TL_39, TL_40, TL_41, TL_42, TL_43, TL_44, TL_45, TL_46, TL_47,
      TL_48, TL_49, TL_50, TL_51, TL_52, TL_53, TL_54, TL_55, TL_56, TL_57, TL_58, TL_59, TL_60, TL_61, TL_62, TL_63;
    match j {
      case 0 => Row48();
      case 1 => Row49();
      case 2 => Row50();
      case 3 => Row51();
      case 4 => Row52();
      case 5 => Row53();
      case 6 => Row54();
      case 7 => Row55();
    }
  }

  lemma {:induction false} Rows7(j: nat)
    requires j < 8
    ensures Flip3(j) < 8 && RowOk(TlRow(56 + j), 8 * Flip3(j) + 7)
  {
    hide RowOk,
      TL_0, TL_1, TL_2, TL_3, TL_4, TL_5, TL_6, TL_7, TL_8, TL_9, TL_10, TL_11, TL_12, TL_13, TL_14, TL_15,
      TL_16, TL_17, TL_18, TL_19, TL_20, TL_21, TL_22, TL_23, TL_24, TL_25, TL_26, TL_27, TL_28, TL_29, TL_30, TL_31,
      TL_32, TL_33, TL_34, TL_35, TL_36, TL_37, TL_38, TL_39, TL_40, TL_41, TL_42, TL_43, TL_44, TL_45, TL_46, TL_47,
      TL_48, TL_49, TL_50, TL_51, TL_52, TL_53, TL_54, TL_55, TL_56, TL_57, TL_58, TL_59, TL_60, TL_61, TL_62, TL_63;
    match j {
      case 0 => Row56();
      case 1 => Row57();
      case 2 => Row58();
      case 3 => Row59();
      case 4 => Row60();
      case 5 => Row61();
      case 6 => Row62();
      case 7 => Row63();
    }
  }


  lemma {:induction false} RowIs(r: nat)
    requires r < 64
    ensures Rev(r, 6) < 64 && RowOk(TlRow(r), Rev(r, 6))
  {
    hide RowOk, Rev, TlRow;
    RevSix(r);
    var j := r % 8;
    assert r == 8 * (r / 8) + j;
    match r / 8 {
      case 0 => Rows0(j);
      case 1 => Rows1(j);
      case 2 => Rows2(j);
      case 3 => Rows3(j);
      case 4 => Rows4(j);
      case 5 => Rows5(j);
      case 6 => Rows6(j);
      case 7 => Rows7(j);
    }
  }

  lemma {:induction false} PickOne(row: seq<Huft>, k: nat, i: nat)
    requires i < 8 && k < 64 && RowOk(row, k)
    ensures Rev(i, 3) < 8 && LitOk(64 * Rev(i, 3) + k, row[i])
  {
    hide LitOk, Rev;
    RevThree(i);
  }

  function TdRow(r: nat): (row: seq<Huft>)
    requires r < 4
    ensures |row| == 8
  {
    if r == 0 then TD_0 else if r == 1 then TD_1 else if r == 2 then TD_2 else TD_3
  }

  predicate DistRowOk(row: seq<Huft>, k: nat)
    requires k < 4
  {
    |row| == 8
    && DistOk(0 + k, row[0]) && DistOk(16 + k, row[1]) && DistOk(8 + k, row[2]) && DistOk(24 + k, row[3])
    && DistOk(4 + k, row[4]) && DistOk(20 + k, row[5]) && DistOk(12 + k, row[6]) && DistOk(28 + k, row[7])
  }

  lemma {:induction false} DistRow0() ensures DistRowOk(TD_0, 0) {}
  lemma {:induction false} DistRow1() ensures DistRowOk(TD_1, 2) {}
  lemma {:induction false} DistRow2() ensures DistRowOk(TD_2, 1) {}
  lemma {:induction false} DistRow3() ensures DistRowOk(TD_3, 3) {}

  lemma {:induction false} DistRowIs(g: nat)
    requires g < 4
    ensures DistRowOk(TdRow(g), if g % 2 == 1 then 2 + g / 2 else g / 2)
  {
    DistRow0();
    DistRow1();
    DistRow2();
    DistRow3();
    hide DistRowOk, TD_0, TD_1, TD_2, TD_3;
  }

  lemma {:induction false} PickDist(row: seq<Huft>, k: nat, i: nat)
    requires i < 8 && k < 4 && DistRowOk(row, k)
    ensures Flip3(i) < 8 && DistOk(4 * Flip3(i) + k, row[i])
  {
    hide DistOk;
  }

  lemma {:induction false} DistIs(i: nat)
    requires i < 32
    ensures Rev(i, 5) < 32 && DistOk(Rev(i, 5), TdRow(i / 8)[i % 8])
  {
    hide DistOk, DistRowOk, TdRow, Rev;
    RevFive(i);
    DistRowIs(i / 8);
    PickDist(TdRow(i / 8), if i / 8 % 2 == 1 then 2 + i / 8 / 2 else i / 8 / 2, i % 8);
  }

  // ---------------------------------------------------------------- the tables

  /** Both tables in one space. */
  function FixedHufts(): (h: seq<Huft>)
    ensures |h| == 544
  {
    seq(544, i requires 0 <= i < 544 => if i < 512 then TlRow(i / 8)[i % 8] else TdRow((i - 512) / 8)[(i - 512) % 8])
  }

  /** fixed_tl and fixed_td with their index sizes fixed_bl and fixed_bd. */
  function FixedPair(): Tables
  {
    Tables(FixedHufts(), 9, 5, 0, 512)
  }

  lemma {:induction false} HuftAt(a: nat)
    requires a < 544
    ensures FixedHufts()[a] == if a < 512 then TlRow(a / 8)[a % 8] else TdRow((a - 512) / 8)[(a - 512) % 8]
  {
    hide TlRow, TdRow;
  }

  lemma {:induction false} NineBits(b: nat)
    ensures var a := Low(b, 9);
            a < 512 && Rev(b, 9) == 64 * Rev(a % 8, 3) + Rev(a / 8, 6)
  {
    Pow2Values();
    var a := Low(b, 9);
    RevLow(b, 9, 9);
    RevAppend(a, 3, 6);
    RevLow(a, 3, 3);
    ThreeAndRest(a);
    SixUp(Rev(a, 3));
    hide Rev, Low, Shl, Shr, Pow2;
  }

  lemma {:induction false} SixUp(x: nat)
    ensures Shl(x, 6) == 64 * x
  {
    ShlMul(x, 6);
    assert Pow2(6) == 64;
  }

  lemma {:induction false} LitAt(b: nat)
    ensures Low(b, 9) < 512 && Rev(b, 9) < 512 && LitOk(Rev(b, 9), FixedHufts()[Low(b, 9)])
  {
    hide LitOk, TlRow, RowOk, FixedHufts, Rev, Low;
    var a := Low(b, 9);
    NineBits(b);
    HuftAt(a);
    RowIs(a / 8);
    PickOne(TlRow(a / 8), Rev(a / 8, 6), a % 8);
  }

  lemma {:induction false} DistAt(b: nat)
    ensures Low(b, 5) < 32 && Rev(b, 5) < 32 && DistOk(Rev(b, 5), FixedHufts()[512 + Low(b, 5)])
  {
    Pow2Values();
    hide DistOk, TdRow, FixedHufts, Rev, Low, Pow2;
    var a := Low(b, 5);
    HuftAt(512 + a);
    DistIs(a);
    RevLow(b, 5, 5);
  }

  lemma {:induction false} LeafAt(h: seq<Huft>, t: nat, n: nat, b: nat)
    requires t + Low(b, n) < |h| && h[t + Low(b, n)].bits <= n && !IsLink(h[t + Low(b, n)])
    ensures Walk(h, t, n, b) == Leaf(h[t + Low(b, n)], h[t + Low(b, n)].bits, n, n)
  {
  }

  lemma {:induction false} NoLink(c: nat, e: Huft)
    requires (c < 512 && LitOk(c, e)) || (c < 32 && DistOk(c, e))
    ensures !IsLink(e) && 1 <= e.bits <= 9
  {
    if c < 512 && LitOk(c, e) && 257 <= FixedSym(c) < 286 {
      ExtraRange(FixedSym(c) - 257);
    }
    if c < 30 && DistOk(c, e) {
      ExtraRange(c);
    }
    hide LBase, LExtra, DBase, DExtra;
  }

  lemma {:induction false} FixedSizes()
    ensures Longest(FixedLengths()) == 9 && RootBits(FixedLengths(), 9) == 9
    ensures Longest(FixedDistances()) == 5 && RootBits(FixedDistances(), 6) == 5
  {
    var f, d := FixedLengths(), FixedDistances();
    assert f[144] == 9 && f[256] == 7 && d[0] == 5;
  }

  /** A lookup asks for all index bits. */
  lemma {:induction false} FixedLooks(b: nat)
    ensures Look(FixedLengths(), 9, b) == 9 && Look(FixedDistances(), 6, b) == 5
  {
    var f, d := FixedLengths(), FixedDistances();
    hide FixedLengths, FixedDistances, Kraft, Longest, RootBits, ReachOf, Rev, Count, End;
    FixedSizes();
    FixedValid();
    FixedKraft();
    FixedSome();
    CfgIsOk(f, 288, [], [], 9);
    CfgIsOk(d, 32, [], [], 6);
    BoundsOk(f, 9);
    BoundsOk(d, 6);
    PositionBound(b);
    OneReach(CfgOf(f, 288, [], [], 9), Rev(b, 16));
    OneReach(CfgOf(d, 32, [], [], 6), Rev(b, 16));
  }

  lemma {:induction false} FixedSome()
    ensures !NoCodes(FixedLengths()) && !NoCodes(FixedDistances())
  {
    assert FixedLengths()[0] == 8 && FixedDistances()[0] == 5;
  }

  lemma {:induction false} LitWalk(b: nat)
    ensures LitEntry(FixedLengths(), Walk(FixedHufts(), 0, 9, b), b)
  {
    hide Walk, FixedHufts, FixedLengths, Decode, Reads, LBase, LExtra, Low, Rev, IsLink, Look;
    FixedLooks(b);
    LitAt(b);
    var c := Rev(b, 9);
    var e := FixedHufts()[Low(b, 9)];
    NoLink(c, e);
    LeafAt(FixedHufts(), 0, 9, b);
    FixedReads(b);
    var i := FixedSym(c);
    FixedCode(i);
    FixedValid();
    DecodeIs(FixedLengths(), i, b);
    hide FixedSym, FixedLen, LitOk, LitEntry;
    LitEntryOf(c, e, b);
  }

  lemma {:induction false} LitEntryOf(c: nat, e: Huft, b: nat)
    requires c < 512 && LitOk(c, e) && 1 <= e.bits && Look(FixedLengths(), 9, b) == 9 && |FixedLengths()| == 288
    requires Decode(FixedLengths(), b) == Some(FixedSym(c)) && FixedLengths()[FixedSym(c)] == FixedLen(FixedSym(c))
    ensures LitEntry(FixedLengths(), Leaf(e, e.bits, 9, 9), b)
  {
    hide FixedLengths, Decode, LBase, LExtra, Look, FixedSym, FixedLen, Longest;
  }

  lemma {:induction false} DistWalk(b: nat)
    ensures DistEntry(FixedDistances(), Walk(FixedHufts(), 512, 5, b), b)
  {
    hide Walk, FixedHufts, Decode, DBase, DExtra, Low, Rev, IsLink, Look;
    FixedLooks(b);
    DistAt(b);
    var i := Rev(b, 5);
    NoLink(i, FixedHufts()[512 + Low(b, 5)]);
    LeafAt(FixedHufts(), 512, 5, b);
    FixedDistCode(i);
    FixedValid();
    DecodeIs(FixedDistances(), i, b);
  }

  lemma {:induction false} FixedValid()
    ensures ValidLens(FixedLengths()) && |FixedLengths()| == 288 && ValidLens(FixedDistances()) && |FixedDistances()| == 32
  {
  }

  /** The two tables decode the codes of section 3.2.6 of RFC 1951. */
  lemma {:induction false} FixedAgree()
    ensures Agree(FixedPair(), FixedLengths(), FixedDistances())
  {
    forall b: nat ensures LitEntry(FixedLengths(), Walk(FixedHufts(), 0, 9, b), b) {
      LitWalk(b);
    }
    forall b: nat ensures DistEntry(FixedDistances(), Walk(FixedHufts(), 512, 5, b), b) {
      DistWalk(b);
    }
    FixedValid();
    hide LitEntry, DistEntry, Walk, FixedHufts, ValidLens;
  }
}
