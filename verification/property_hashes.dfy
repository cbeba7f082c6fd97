/**
  The hash codes of the property names, computed one code unit at a time. The
  generated builders use these numbers, written out as literals, as the case
  labels of their name-keyed switches.
 */
module PropertyHashes {
  import JavaString

  /** The prefix "reset" that two property names of the reset schedule share. */
  lemma ResetPrefix()
    ensures JavaString.UnsignedHash("reset") == 108404047
  {
    assert "r"[..0] == "";
    assert JavaString.UnsignedHash("r") == 114;
    assert "re"[..1] == "r";
    assert JavaString.UnsignedHash("re") == 3635;
    assert "res"[..2] == "re";
    assert JavaString.UnsignedHash("res") == 112800;
    assert "rese"[..3] == "res";
    assert JavaString.UnsignedHash("rese") == 3496901;
    assert "reset"[..4] == "rese";
    assert JavaString.UnsignedHash("reset") == 108404047;
  }


  lemma ResetFrequency()
    ensures JavaString.HashCode("resetFrequency") == 101322957
  {
    ResetPrefix();
    assert "resetF"[..5] == "reset";
    assert JavaString.UnsignedHash("resetF") == 3360525527;
    assert "resetFr"[..6] == "resetF";
    assert JavaString.UnsignedHash("resetFr") == 1097076347;
    assert "resetFre"[..7] == "resetFr";
    assert JavaString.UnsignedHash("resetFre") == 3944595786;
    assert "resetFreq"[..8] == "resetFre";
    assert JavaString.UnsignedHash("resetFreq") == 2023385191;
    assert "resetFrequ"[..9] == "resetFreq";
    assert JavaString.UnsignedHash("resetFrequ") == 2595398894;
    assert "resetFreque"[..10] == "resetFrequ";
    assert JavaString.UnsignedHash("resetFreque") == 3147954487;
    assert "resetFrequen"[..11] == "resetFreque";
    assert JavaString.UnsignedHash("resetFrequen") == 3097308695;
    assert "resetFrequenc"[..12] == "resetFrequen";
    assert JavaString.UnsignedHash("resetFrequenc") == 1527289132;
    assert "resetFrequency"[..13] == "resetFrequenc";
    assert JavaString.UnsignedHash("resetFrequency") == 101322957;
  }

  /** The prefix "resetBusiness", past the midpoint of the longest property name. */
  lemma ResetBusinessPrefix()
    ensures JavaString.UnsignedHash("resetBusiness") == 1906737711
  {
    ResetPrefix();
    assert "resetB"[..5] == "reset";
    assert JavaString.UnsignedHash("resetB") == 3360525523;
    assert "resetBu"[..6] == "resetB";
    assert JavaString.UnsignedHash("resetBu") == 1097076226;
    assert "resetBus"[..7] == "resetBu";
    assert JavaString.UnsignedHash("resetBus") == 3944592049;
    assert "resetBusi"[..8] == "resetBus";
    assert JavaString.UnsignedHash("resetBusi") == 2023269336;
    assert "resetBusin"[..9] == "resetBusi";
    assert JavaString.UnsignedHash("resetBusin") == 2591807382;
    assert "resetBusine"[..10] == "resetBusin";
    assert JavaString.UnsignedHash("resetBusine") == 3036617615;
    assert "resetBusines"[..11] == "resetBusine";
    assert JavaString.UnsignedHash("resetBusines") == 3940832964;
    assert "resetBusiness"[..12] == "resetBusines";
    assert JavaString.UnsignedHash("resetBusiness") == 1906737711;
  }

  lemma ResetBusinessDayAdjustment()
    ensures JavaString.HashCode("resetBusinessDayAdjustment") == -1777046470
  {
    ResetBusinessPrefix();
    assert "resetBusinessD"[..13] == "resetBusiness";
    assert JavaString.UnsignedHash("resetBusinessD") == 3274294261;
    assert "resetBusinessDa"[..14] == "resetBusinessD";
    assert JavaString.UnsignedHash("resetBusinessDa") == 2718874380;
    assert "resetBusinessDay"[..15] == "resetBusinessDa";
    assert JavaString.UnsignedHash("resetBusinessDay") == 2680727277;
    assert "resetBusinessDayA"[..16] == "resetBusinessDay";
    assert JavaString.UnsignedHash("resetBusinessDayA") == 1498167028;
    assert "resetBusinessDayAd"[..17] == "resetBusinessDayA";
    assert JavaString.UnsignedHash("resetBusinessDayAd") == 3493505008;
    assert "resetBusinessDayAdj"[..18] == "resetBusinessDayAd";
    assert JavaString.UnsignedHash("resetBusinessDayAdj") == 924472954;
    assert "resetBusinessDayAdju"[..19] == "resetBusinessDayAdj";
    assert JavaString.UnsignedHash("resetBusinessDayAdju") == 2888857915;
    assert "resetBusinessDayAdjus"[..20] == "resetBusinessDayAdju";
    assert JavaString.UnsignedHash("resetBusinessDayAdjus") == 3655249560;
    assert "resetBusinessDayAdjust"[..21] == "resetBusinessDayAdjus";
    assert JavaString.UnsignedHash("resetBusinessDayAdjust") == 1643586780;
    assert "resetBusinessDayAdjustm"[..22] == "resetBusinessDayAdjust";
    assert JavaString.UnsignedHash("resetBusinessDayAdjustm") == 3706550033;
    assert "resetBusinessDayAdjustme"[..23] == "resetBusinessDayAdjustm";
    assert JavaString.UnsignedHash("resetBusinessDayAdjustme") == 3233901428;
    assert "resetBusinessDayAdjustmen"[..24] == "resetBusinessDayAdjustme";
    assert JavaString.UnsignedHash("resetBusinessDayAdjustmen") == 1466696570;
    assert "resetBusinessDayAdjustment"[..25] == "resetBusinessDayAdjustmen";
    assert JavaString.UnsignedHash("resetBusinessDayAdjustment") == 2517920826;
  }

  lemma RateAveragingMethod()
    ensures JavaString.HashCode("rateAveragingMethod") == 154998811
  {
    assert "r"[..0] == "";
    assert JavaString.UnsignedHash("r") == 114;
    assert "ra"[..1] == "r";
    assert JavaString.UnsignedHash("ra") == 3631;
    assert "rat"[..2] == "ra";
    assert JavaString.UnsignedHash("rat") == 112677;
    assert "rate"[..3] == "rat";
    assert JavaString.UnsignedHash("rate") == 3493088;
    assert "rateA"[..4] == "rate";
    assert JavaString.UnsignedHash("rateA") == 108285793;
    assert "rateAv"[..5] == "rateA";
    assert JavaString.UnsignedHash("rateAv") == 3356859701;
    assert "rateAve"[..6] == "rateAv";
    assert JavaString.UnsignedHash("rateAve") == 983435728;
    assert "rateAver"[..7] == "rateAve";
    assert JavaString.UnsignedHash("rateAver") == 421736610;
    assert "rateAvera"[..8] == "rateAver";
    assert JavaString.UnsignedHash("rateAvera") == 188933119;
    assert "rateAverag"[..9] == "rateAvera";
    assert JavaString.UnsignedHash("rateAverag") == 1561959496;
    assert "rateAveragi"[..10] == "rateAverag";
    assert JavaString.UnsignedHash("rateAveragi") == 1176104225;
    assert "rateAveragin"[..11] == "rateAveragi";
    assert JavaString.UnsignedHash("rateAveragin") == 2099492717;
    assert "rateAveraging"[..12] == "rateAveragin";
    assert JavaString.UnsignedHash("rateAveraging") == 659764890;
    assert "rateAveragingM"[..13] == "rateAveraging";
    assert JavaString.UnsignedHash("rateAveragingM") == 3272842483;
    assert "rateAveragingMe"[..14] == "rateAveragingM";
    assert JavaString.UnsignedHash("rateAveragingMe") == 2673869266;
    assert "rateAveragingMet"[..15] == "rateAveragingMe";
    assert JavaString.UnsignedHash("rateAveragingMet") == 1285568738;
    assert "rateAveragingMeth"[..16] == "rateAveragingMet";
    assert JavaString.UnsignedHash("rateAveragingMeth") == 1197925318;
    assert "rateAveragingMetho"[..17] == "rateAveragingMeth";
    assert JavaString.UnsignedHash("rateAveragingMetho") == 2775946601;
    assert "rateAveragingMethod"[..18] == "rateAveragingMetho";
    assert JavaString.UnsignedHash("rateAveragingMethod") == 154998811;
  }

  lemma Info()
    ensures JavaString.HashCode("info") == 3237038
  {
    assert "i"[..0] == "";
    assert JavaString.UnsignedHash("i") == 105;
    assert "in"[..1] == "i";
    assert JavaString.UnsignedHash("in") == 3365;
    assert "inf"[..2] == "in";
    assert JavaString.UnsignedHash("inf") == 104417;
    assert "info"[..3] == "inf";
    assert JavaString.UnsignedHash("info") == 3237038;
  }

  lemma Product()
    ensures JavaString.HashCode("product") == -309474065
  {
    assert "p"[..0] == "";
    assert JavaString.UnsignedHash("p") == 112;
    assert "pr"[..1] == "p";
    assert JavaString.UnsignedHash("pr") == 3586;
    assert "pro"[..2] == "pr";
    assert JavaString.UnsignedHash("pro") == 111277;
    assert "prod"[..3] == "pro";
    assert JavaString.UnsignedHash("prod") == 3449687;
    assert "produ"[..4] == "prod";
    assert JavaString.UnsignedHash("produ") == 106940414;
    assert "produc"[..5] == "produ";
    assert JavaString.UnsignedHash("produc") == 3315152933;
    assert "product"[..6] == "produc";
    assert JavaString.UnsignedHash("product") == 3985493231;
  }

  lemma UpfrontFee()
    ensures JavaString.HashCode("upfrontFee") == 963468344
  {
    assert "u"[..0] == "";
    assert JavaString.UnsignedHash("u") == 117;
    assert "up"[..1] == "u";
    assert JavaString.UnsignedHash("up") == 3739;
    assert "upf"[..2] == "up";
    assert JavaString.UnsignedHash("upf") == 116011;
    assert "upfr"[..3] == "upf";
    assert JavaString.UnsignedHash("upfr") == 3596455;
    assert "upfro"[..4] == "upfr";
    assert JavaString.UnsignedHash("upfro") == 111490216;
    assert "upfron"[..5] == "upfro";
    assert JavaString.UnsignedHash("upfron") == 3456196806;
    assert "upfront"[..6] == "upfron";
    assert JavaString.UnsignedHash("upfront") == 4062885998;
    assert "upfrontF"[..7] == "upfront";
    assert JavaString.UnsignedHash("upfrontF") == 1395414424;
    assert "upfrontFe"[..8] == "upfrontF";
    assert JavaString.UnsignedHash("upfrontFe") == 308174285;
    assert "upfrontFee"[..9] == "upfrontFe";
    assert JavaString.UnsignedHash("upfrontFee") == 963468344;
  }

  /** A name opening with U+10000, whose surrogate pair D800 DC00 brings its hash to that of "info". */
  lemma SupplementaryInfoName()
    ensures JavaString.HashCode("\U{10000} \U{ADCD}\U{D7EF}\U{D7EA}\U{D7F6}") == 3237038
  {
    assert "\U{10000}"[..0] == "";
    assert JavaString.UnsignedHash("\U{10000}") == 1770496;
    assert "\U{10000} "[..1] == "\U{10000}";
    assert JavaString.UnsignedHash("\U{10000} ") == 54885408;
    assert "\U{10000} \U{ADCD}"[..2] == "\U{10000} ";
    assert JavaString.UnsignedHash("\U{10000} \U{ADCD}") == 1701492141;
    assert "\U{10000} \U{ADCD}\U{D7EF}"[..3] == "\U{10000} \U{ADCD}";
    assert JavaString.UnsignedHash("\U{10000} \U{ADCD}\U{D7EF}") == 1206704098;
    assert "\U{10000} \U{ADCD}\U{D7EF}\U{D7EA}"[..4] == "\U{10000} \U{ADCD}\U{D7EF}";
    assert JavaString.UnsignedHash("\U{10000} \U{ADCD}\U{D7EF}\U{D7EA}") == 3048143944;
    assert "\U{10000} \U{ADCD}\U{D7EF}\U{D7EA}\U{D7F6}"[..5] == "\U{10000} \U{ADCD}\U{D7EF}\U{D7EA}";
    assert JavaString.UnsignedHash("\U{10000} \U{ADCD}\U{D7EF}\U{D7EA}\U{D7F6}") == 3237038;
  }
}
