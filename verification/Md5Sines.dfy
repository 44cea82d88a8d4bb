/**
 The additive constants of section 3.4 of RFC 1321: 4294967296 times the absolute value
 of the sine of 1, 2, ..., 64 (in radians), cut to an integer.
 */
module Md5Sines {

  // ------------------------------------------------------------- sine and cosine

  /** The terms of the series of sine and cosine at 1, and their sums. */
  function SinTerm(k: nat): real { if k == 0 then 1.0 else -SinTerm(k - 1) / ((2 * k * (2 * k + 1)) as real) }
  function CosTerm(k: nat): real { if k == 0 then 1.0 else -CosTerm(k - 1) / ((2 * k * (2 * k - 1)) as real) }
  function SinSum(n: nat): real { if n == 0 then 0.0 else SinSum(n - 1) + SinTerm(n - 1) }
  function CosSum(n: nat): real { if n == 0 then 0.0 else CosSum(n - 1) + CosTerm(n - 1) }

  function Abs(x: real): real { if x < 0.0 then -x else x }

  /** Alternating series: what is missing is at most the next term. */
  predicate Within(s: real, c: real, n: nat) {
    Abs(s - SinSum(n)) <= Abs(SinTerm(n)) && Abs(c - CosSum(n)) <= Abs(CosTerm(n))
  }

  /** s is the sine and c the cosine of 1. */
  ghost predicate AngleOne(s: real, c: real) {
    s * s + c * c == 1.0 && forall n: nat :: Within(s, c, n)
  }

  /** Sine and cosine of n, by adding angles. */
  function Sin(s: real, c: real, n: nat): real {
    if n == 0 then 0.0 else Sin(s, c, n - 1) * c + Cos(s, c, n - 1) * s
  }

  function Cos(s: real, c: real, n: nat): real {
    if n == 0 then 1.0 else Cos(s, c, n - 1) * c - Sin(s, c, n - 1) * s
  }

  // ---------------------------------------------------------- as whole numbers

  /** A point of the circle, in units of 10^-33. */
  datatype Point = Point(x: int, y: int)

  function Rows0(n: nat): Point {
    if n == 0 then Point(0, 1000000_000000000_000000000_000000000)
    else if n == 1 then Point(841470_984807896_506652502_321630298, 540302_305868139_717400936_607442976)
    else if n == 2 then Point(909297_426825681_695396019_865911742, -416146_836547142_386997568_229500762)
    else if n == 3 then Point(141120_008059867_222100744_802808108, -989992_496600445_457271572_794731258)
    else if n == 4 then Point(-756802_495307928_251372639_094511827, -653643_620863611_914639168_183097746)
    else if n == 5 then Point(-958924_274663138_468893154_406155989, 283662_185463226_264466639_171513557)
    else if n == 6 then Point(-279415_498198925_872811555_446611893, 960170_286650366_020545652_297922918)
    else Point(656986_598718789_090396999_091593629, 753902_254343304_638141197_521719176)
  }

  function Rows1(n: nat): Point {
    if n == 8 then Point(989358_246623381_777808123_598245279, -145500_033808613_525868841_381831193)
    else if n == 9 then Point(412118_485241756_569756272_566352430, -911130_261884676_988368294_711181156)
    else if n == 10 then Point(-544021_110889369_813404747_661851372, -839071_529076452_452258863_947824055)
    else if n == 11 then Point(-999990_206550703_457051564_899025510, 4425_697988050_785748355_024723942)
    else if n == 12 then Point(-536572_918000434_971665374_228242395, 843853_958732492_104653955_293173610)
    else if n == 13 then Point(420167_036826640_921868955_035476876, 907446_781450196_213852686_155474462)
    else if n == 14 then Point(990607_355694870_307875354_804014569, 136737_218207833_594248928_876671736)
    else Point(650287_840157116_865829740_270988858, -759687_912858821_273848146_403633267)
  }

  function Rows2(n: nat): Point {
    if n == 16 then Point(-287903_316665065_294784456_248218613, -957659_480323384_641899637_232651085)
    else if n == 17 then Point(-961397_491879556_857261636_944869137, -275163_338051596_922220342_656551857)
    else if n == 18 then Point(-750987_246771676_103750156_084447099, 660316_708244080_144816100_044790437)
    else if n == 19 then Point(149877_209662952_329754239_321238250, 988704_618186669_252898352_856548135)
    else if n == 20 then Point(912945_250727627_654376099_983845660, 408082_061813391_986062267_860927635)
    else if n == 21 then Point(836655_638536056_031866480_770245002, -547729_260224268_421384271_132950968)
    else if n == 22 then Point(-8851_309290403_875921690_256815773, -999960_826394637_126454174_739212667)
    else Point(-846220_404175170_635241326_271905573, -532833_020333397_555215757_657164111)
  }

  function Rows3(n: nat): Point {
    if n == 24 then Point(-905578_362006623_845135793_358527768, 424179_007336996_975937050_944759194)
    else if n == 25 then Point(-132351_750097773_028902005_093883603, 991202_811863473_598083294_718815894)
    else if n == 26 then Point(762558_450479602_737515823_293204538, 646919_322328640_342721383_901888881)
    else if n == 27 then Point(956375_928404503_013432340_558329161, -292138_808733836_193371404_835837620)
    else if n == 28 then Point(270905_788307869_019986343_092778783, -962605_866313566_601975453_057899276)
    else if n == 29 then Point(-663633_884212967_502151173_340061082, -748057_529689000_351765191_792255115)
    else if n == 30 then Point(-988031_624092861_789987748_907294423, 154251_449887584_050718662_146614204)
    else Point(-404037_645323065_006048770_899664223, 914742_357804531_278962435_826150320)
  }

  function Rows4(n: nat): Point {
    if n == 32 then Point(551426_681241690_550661558_166845690, 834223_360506510_272215526_470870260)
    else if n == 33 then Point(999911_860107267_145728084_376707787, -13276_747223059_478915220_031371006)
    else if n == 34 then Point(529082_686120023_820832487_134032082, -848570_274784605_186599972_087712347)
    else if n == 35 then Point(-428182_669496151_004406752_891745923, -903692_205091506_759847304_572083731)
    else if n == 36 then Point(-991778_853443115_736835288_968840772, -127963_689627404_681028327_977914365)
    else if n == 37 then Point(-643538_133356999_460685670_019080766, 765414_051945343_356491081_292902477)
    else if n == 38 then Point(296368_578709385_317392296_649849003, 955073_644047294_857586536_235405832)
    else Point(963795_386284087_753260664_971765835, 266642_932359937_251526825_794975620)
  }

  function Rows5(n: nat): Point {
    if n == 40 then Point(745113_160479348_786987709_402636307, -666938_061652261_844384092_781933667)
    else if n == 41 then Point(-158622_668804708_987103317_011929680, -987339_277523826_458228825_133414778)
    else if n == 42 then Point(-916521_547915633_785898989_158069625, -399985_314988351_293954707_337177181)
    else if n == 43 then Point(-831774_742628598_288209578_256291709, 555113_301520625_677044879_441962563)
    else if n == 44 then Point(17701_925105413_577807954_053166615, 999843_308647691_220069009_016637802)
    else if n == 45 then Point(850903_524534118_424862379_677617993, 525321_988817729_696047464_404823534)
    else if n == 46 then Point(901788_347648809_185033293_039222687, -432177_944884778_294952776_524132744)
    else Point(123573_122745224_004061529_348086403, -992335_469150928_718279752_420344805)
  }

  function Rows6(n: nat): Point {
    if n == 48 then Point(-768254_661323666_799044965_664845849, -640144_339469199_731312941_419393040)
    else if n == 49 then Point(-953752_652759471_818360423_558587655, 300592_543743637_083687026_000490543)
    else if n == 50 then Point(-262374_853703928_785914393_646912608, 964966_028492113_274068957_058900959)
    else if n == 51 then Point(670229_175843374_734494345_074950625, 742154_196813782_539467377_175736911)
    else if n == 52 then Point(986627_592040485_296587568_934436678, -162990_780795705_481003329_815425201)
    else if n == 53 then Point(395925_150181834_181503386_139263514, -918282_786212118_891199726_323216413)
    else if n == 54 then Point(-558789_048851616_245817871_318965358, -829309_832863150_147727850_042488115)
    else Point(-999755_173358619_836598631_683243827, 22126_756261955_734563564_262146625)
  }

  function Rows7(n: nat): Point {
    if n == 56 then Point(-521551_002086911_880187410_021510566, 853220_107722584_113969681_233914857)
    else if n == 57 then Point(436164_755247824_959080534_793129213, 899866_826969193_786503000_404657774)
    else if n == 58 then Point(992872_648084537_118165088_164425330, 119180_135448819_285435843_610766956)
    else if n == 59 then Point(636738_007139137_880771233_492376784, -771080_222975845_229387435_296376234)
    else if n == 60 then Point(-304810_621102216_705625649_465478404, -952412_980415156_292693816_595992865)
    else if n == 61 then Point(-966117_770008392_947018287_989480448, -258101_635938267_445701207_347152736)
    else if n == 62 then Point(-739180_696649222_867276016_933755383, 673507_162323586_252887833_405953886)
    else if n == 63 then Point(167355_700302806_921527838_370288704, 985896_581582549_697438635_756053903)
    else Point(920026_038196790_683351536_603777180, 391857_230429550_005161709_858513094)
  }

  /** The points at 0, 1, ..., 64: sine and cosine, cut down. */
  function Row(n: nat): Point {
    if n < 8 then Rows0(n) else if n < 16 then Rows1(n) else if n < 24 then Rows2(n) else if n < 32 then Rows3(n)
    else if n < 40 then Rows4(n) else if n < 48 then Rows5(n) else if n < 56 then Rows6(n) else Rows7(n)
  }

  /** q is p turned by 1, up to rounding down. */
  predicate Turned(p: Point, q: Point) {
    && 0 <= p.x * 540302_305868139_717400936_607442976 + p.y * 841470_984807896_506652502_321630298
            - q.x * 1000000_000000000_000000000_000000000 < 1000000_000000000_000000000_000000000
    && 0 <= p.y * 540302_305868139_717400936_607442976 - p.x * 841470_984807896_506652502_321630298
            - q.y * 1000000_000000000_000000000_000000000 < 1000000_000000000_000000000_000000000
  }

  lemma Turns0(n: nat)
    requires 0 <= n < 4
    ensures Turned(Row(n), Row(n + 1))
  {
    assert n == 0 || n == 1 || n == 2 || n == 3;
  }

  lemma Turns1(n: nat)
    requires 4 <= n < 8
    ensures Turned(Row(n), Row(n + 1))
  {
    assert n == 4 || n == 5 || n == 6 || n == 7;
  }

  lemma Turns2(n: nat)
    requires 8 <= n < 12
    ensures Turned(Row(n), Row(n + 1))
  {
    assert n == 8 || n == 9 || n == 10 || n == 11;
  }

  lemma Turns3(n: nat)
    requires 12 <= n < 16
    ensures Turned(Row(n), Row(n + 1))
  {
    assert n == 12 || n == 13 || n == 14 || n == 15;
  }

  lemma Turns4(n: nat)
    requires 16 <= n < 20
    ensures Turned(Row(n), Row(n + 1))
  {
    assert n == 16 || n == 17 || n == 18 || n == 19;
  }

  lemma Turns5(n: nat)
    requires 20 <= n < 24
    ensures Turned(Row(n), Row(n + 1))
  {
    assert n == 20 || n == 21 || n == 22 || n == 23;
  }

  lemma Turns6(n: nat)
    requires 24 <= n < 28
    ensures Turned(Row(n), Row(n + 1))
  {
    assert n == 24 || n == 25 || n == 26 || n == 27;
  }

  lemma Turns7(n: nat)
    requires 28 <= n < 32
    ensures Turned(Row(n), Row(n + 1))
  {
    assert n == 28 || n == 29 || n == 30 || n == 31;
  }

  lemma Turns8(n: nat)
    requires 32 <= n < 36
    ensures Turned(Row(n), Row(n + 1))
  {
    assert n == 32 || n == 33 || n == 34 || n == 35;
  }

  lemma Turns9(n: nat)
    requires 36 <= n < 40
    ensures Turned(Row(n), Row(n + 1))
  {
    assert n == 36 || n == 37 || n == 38 || n == 39;
  }

  lemma Turns10(n: nat)
    requires 40 <= n < 44
    ensures Turned(Row(n), Row(n + 1))
  {
    assert n == 40 || n == 41 || n == 42 || n == 43;
  }

  lemma Turns11(n: nat)
    requires 44 <= n < 48
    ensures Turned(Row(n), Row(n + 1))
  {
    assert n == 44 || n == 45 || n == 46 || n == 47;
  }

  lemma Turns12(n: nat)
    requires 48 <= n < 52
    ensures Turned(Row(n), Row(n + 1))
  {
    assert n == 48 || n == 49 || n == 50 || n == 51;
  }

  lemma Turns13(n: nat)
    requires 52 <= n < 56
    ensures Turned(Row(n), Row(n + 1))
  {
    assert n == 52 || n == 53 || n == 54 || n == 55;
  }

  lemma Turns14(n: nat)
    requires 56 <= n < 60
    ensures Turned(Row(n), Row(n + 1))
  {
    assert n == 56 || n == 57 || n == 58 || n == 59;
  }

  lemma Turns15(n: nat)
    requires 60 <= n < 64
    ensures Turned(Row(n), Row(n + 1))
  {
    assert n == 60 || n == 61 || n == 62 || n == 63;
  }

  lemma Turns(n: nat)
    requires n < 64
    ensures Turned(Row(n), Row(n + 1))
  {
    if n < 4 {
      Turns0(n);
    } else if n < 8 {
      Turns1(n);
    } else if n < 12 {
      Turns2(n);
    } else if n < 16 {
      Turns3(n);
    } else if n < 20 {
      Turns4(n);
    } else if n < 24 {
      Turns5(n);
    } else if n < 28 {
      Turns6(n);
    } else if n < 32 {
      Turns7(n);
    } else if n < 36 {
      Turns8(n);
    } else if n < 40 {
      Turns9(n);
    } else if n < 44 {
      Turns10(n);
    } else if n < 48 {
      Turns11(n);
    } else if n < 52 {
      Turns12(n);
    } else if n < 56 {
      Turns13(n);
    } else if n < 60 {
      Turns14(n);
    } else {
      Turns15(n);
    }
  }

  // ------------------------------------------------------------------ the error

  lemma SinNext(n: nat, sum: real, term: real, d: real)
    requires SinSum(n) == sum && SinTerm(n) == term && d == (2 * (n + 1) * (2 * n + 3)) as real
    ensures SinSum(n + 1) == sum + term && SinTerm(n + 1) == -term / d
  {
  }

  lemma Sin8()
    ensures SinSum(8) == 1100_370038249.0 / 1307_674368000.0
    ensures SinTerm(8) == 1.0 / 355687_428096000.0
  {
  }

  lemma Sin12()
    ensures SinSum(12) == 4350_744396907_953273869.0 / 5170_403347776_995328000.0
    ensures SinTerm(12) == 1.0 / 15511210_043330985_984000000.0
  {
    Sin8();
    SinNext(8, 1100_370038249.0 / 1307_674368000.0,
            1.0 / 355687_428096000.0, 342.0);
    SinNext(9, 23023_126954133.0 / 27360_571392000.0,
            -1.0 / 121645100_408832000.0, 420.0);
    SinNext(10, 102360822_438075317.0 / 121645100_408832000.0,
            1.0 / 51_090942171_709440000.0, 506.0);
    SinNext(11, 42_991545423_991633141.0 / 51_090942171_709440000.0,
            -1.0 / 25852_016738884_976640000.0, 600.0);
  }

  lemma Sin16()
    ensures SinSum(16) == 364172_638960396_581472899_447242531.0 / 432780_981798838_043038187_520000000.0
    ensures SinTerm(16) == 1.0 / 8_683317618_811886495_518194401_280000000.0
  {
    Sin12();
    SinNext(12, 4350_744396907_953273869.0 / 5170_403347776_995328000.0,
            1.0 / 15511210_043330985_984000000.0, 702.0);
    SinNext(13, 13052233_190723859_821607001.0 / 15511210_043330985_984000000.0,
            -1.0 / 10_888869450_418352160_768000000.0, 812.0);
    SinNext(14, 9_162667699_888149594_768114701.0 / 10_888869450_418352160_768000000.0,
            1.0 / 8841_761993739_701954543_616000000.0, 930.0);
    SinNext(15, 7440_086172309_177470951_709137213.0 / 8841_761993739_701954543_616000000.0,
            -1.0 / 8222838_654177922_817725562_880000000.0, 1056.0);
  }

  lemma CosNext(n: nat, sum: real, term: real, d: real)
    requires CosSum(n) == sum && CosTerm(n) == term && d == (2 * (n + 1) * (2 * n + 1)) as real
    ensures CosSum(n + 1) == sum + term && CosTerm(n + 1) == -term / d
  {
  }

  lemma Cos8()
    ensures CosSum(8) == 47_102631757.0 / 87_178291200.0
    ensures CosTerm(8) == 1.0 / 20922_789888000.0
  {
  }

  lemma Cos12()
    ensures CosSum(12) == 607_300185015_708631061.0 / 1124_000727777_607680000.0
    ensures CosTerm(12) == 1.0 / 620448_401733239_439360000.0
  {
    Cos8();
    CosNext(8, 47_102631757.0 / 87_178291200.0,
            1.0 / 20922_789888000.0, 306.0);
    CosNext(9, 11304_631621681.0 / 20922_789888000.0,
            -1.0 / 6402373_705728000.0, 380.0);
    CosNext(10, 691843_455246877.0 / 1280474_741145600.0,
            1.0 / 2_432902008_176640000.0, 462.0);
    CosNext(11, 1_314502564_969066301.0 / 2_432902008_176640000.0,
            -1.0 / 1124_000727777_607680000.0, 552.0);
  }

  lemma Cos16()
    ensures CosSum(16) == 848_027998784_883070051_677094421.0 / 1569_543549184_562477137_920000000.0
    ensures CosTerm(16) == 1.0 / 263130836_933693530_167218012_160000000.0
  {
    Cos12();
    CosNext(12, 607_300185015_708631061.0 / 1124_000727777_607680000.0,
            1.0 / 620448_401733239_439360000.0, 650.0);
    CosNext(13, 335229_702128671_164345673.0 / 620448_401733239_439360000.0,
            -1.0 / 403291461_126605635_584000000.0, 756.0);
    CosNext(14, 217899306_383636256_824687449.0 / 403291461_126605635_584000000.0,
            1.0 / 304_888344611_713860501_504000000.0, 870.0);
    CosNext(15, 32_946375125_205802031_892742289.0 / 60_977668922_342772100_300800000.0,
            -1.0 / 265252_859812191_058636308_480000000.0, 992.0);
  }

  /** The first point is sine and cosine of 1 to the unit. */
  lemma FirstPoint(s: real, c: real)
    requires Within(s, c, 16)
    ensures Abs(s * 1000000_000000000_000000000_000000000.0 - 841470_984807896_506652502_321630298.0) <= 1.0
    ensures Abs(c * 1000000_000000000_000000000_000000000.0 - 540302_305868139_717400936_607442976.0) <= 1.0
  {
    Sin16();
    Cos16();
  }

  lemma FirstPointOf(s: real, c: real)
    requires AngleOne(s, c)
    ensures FirstNear(s, c)
  {
    assert Within(s, c, 16);
    FirstPoint(s, c);
  }

  predicate FirstNear(s: real, c: real) {
    && Abs(s * 1000000_000000000_000000000_000000000.0 - 841470_984807896_506652502_321630298.0) <= 1.0
    && Abs(c * 1000000_000000000_000000000_000000000.0 - 540302_305868139_717400936_607442976.0) <= 1.0
  }

  lemma ProductSign(u: real, v: real)
    requires u >= 0.0 && v >= 0.0
    ensures u * v >= 0.0
  {
  }

  lemma SquareSign(x: real)
    ensures x * x >= 0.0
  {
    if x >= 0.0 {
      ProductSign(x, x);
    } else {
      ProductSign(-x, -x);
      assert (-x) * (-x) == x * x;
    }
  }

  lemma SquareBound(x: real)
    requires x * x <= 1.0
    ensures -1.0 <= x <= 1.0
  {
    SquareSign(x - 1.0);
    SquareSign(x + 1.0);
    assert (x - 1.0) * (x - 1.0) == x * x - 2.0 * x + 1.0 && (x + 1.0) * (x + 1.0) == x * x + 2.0 * x + 1.0;
  }

  lemma ProductUpper(x: real, g: real)
    requires -1.0 <= x <= 1.0 && -1.0 <= g <= 1.0
    ensures x * g <= 1.0
  {
    var u, v := (1.0 - x) * (1.0 + g), (1.0 + x) * (1.0 - g);
    ProductSign(1.0 - x, 1.0 + g);
    ProductSign(1.0 + x, 1.0 - g);
    assert u + v == 2.0 - 2.0 * (x * g);
  }

  lemma ProductBound(x: real, g: real)
    requires -1.0 <= x <= 1.0 && -1.0 <= g <= 1.0
    ensures -1.0 <= x * g <= 1.0
  {
    ProductUpper(x, g);
    ProductUpper(-x, g);
    assert (-x) * g == -(x * g);
  }

  lemma OnCircle(a: real, b: real, s: real, c: real)
    requires a * a + b * b == 1.0 && s * s + c * c == 1.0
    ensures (a * c + b * s) * (a * c + b * s) + (b * c - a * s) * (b * c - a * s) == 1.0
  {
    var x, y := a * c + b * s, b * c - a * s;
    assert x * x == (a * a) * (c * c) + 2.0 * (a * b * s * c) + (b * b) * (s * s);
    assert y * y == (b * b) * (c * c) - 2.0 * (a * b * s * c) + (a * a) * (s * s);
    assert (a * a + b * b) * (s * s + c * c)
        == (a * a) * (s * s) + (a * a) * (c * c) + (b * b) * (s * s) + (b * b) * (c * c);
  }

  lemma CircleBound(a: real, b: real)
    requires a * a + b * b == 1.0
    ensures -1.0 <= a <= 1.0 && -1.0 <= b <= 1.0
  {
    SquareSign(a);
    SquareSign(b);
    SquareBound(a);
    SquareBound(b);
  }

  lemma {:induction false} SinCosOnCircle(s: real, c: real, n: nat)
    requires s * s + c * c == 1.0
    ensures Sin(s, c, n) * Sin(s, c, n) + Cos(s, c, n) * Cos(s, c, n) == 1.0
  {
    if n > 0 {
      SinCosOnCircle(s, c, n - 1);
      OnCircle(Sin(s, c, n - 1), Cos(s, c, n - 1), s, c);
    }
  }

  /** The point is sine and cosine to e units. */
  predicate Near(a: real, b: real, p: Point, e: real) {
    && Abs(a * 1000000_000000000_000000000_000000000.0 - p.x as real) <= e
    && Abs(b * 1000000_000000000_000000000_000000000.0 - p.y as real) <= e
  }

  lemma TurnedReal(p: Point, q: Point, px: real, py: real, qx: real, qy: real)
    requires Turned(p, q) && px == p.x as real && py == p.y as real && qx == q.x as real && qy == q.y as real
    ensures 0.0 <= px * 540302_305868139_717400936_607442976.0 + py * 841470_984807896_506652502_321630298.0
                   - qx * 1000000_000000000_000000000_000000000.0 <= 1000000_000000000_000000000_000000000.0
    ensures 0.0 <= py * 540302_305868139_717400936_607442976.0 - px * 841470_984807896_506652502_321630298.0
                   - qy * 1000000_000000000_000000000_000000000.0 <= 1000000_000000000_000000000_000000000.0
  {
  }

  predicate InUnit(a: real, b: real) {
    -1.0 <= a <= 1.0 && -1.0 <= b <= 1.0
  }

  /** One coordinate, au and bv being products known to a unit: the error at most doubles. */
  lemma TurnOne(a: real, b: real, au: real, bv: real, px: real, py: real, qx: real, e: real)
    requires Abs(a * 1000000_000000000_000000000_000000000.0 - px) <= e && e >= 8.0
    requires Abs(b * 1000000_000000000_000000000_000000000.0 - py) <= e
    requires Abs(au * 1000000_000000000_000000000_000000000.0 - a * 540302_305868139_717400936_607442976.0) <= 1.0
    requires Abs(bv * 1000000_000000000_000000000_000000000.0 - b * 841470_984807896_506652502_321630298.0) <= 1.0
    requires 0.0 <= px * 540302_305868139_717400936_607442976.0 + py * 841470_984807896_506652502_321630298.0
                    - qx * 1000000_000000000_000000000_000000000.0 <= 1000000_000000000_000000000_000000000.0
    ensures Abs((au + bv) * 1000000_000000000_000000000_000000000.0 - qx) <= 2.0 * e
  {
  }

  /** Turning at most doubles the error. */
  lemma TurnNear(a: real, b: real, ac: real, bs: real, bc: real, sa: real, p: Point, q: Point, e: real)
    requires Near(a, b, p, e) && Turned(p, q) && e >= 8.0
    requires Abs(ac * 1000000_000000000_000000000_000000000.0 - a * 540302_305868139_717400936_607442976.0) <= 1.0
    requires Abs(bs * 1000000_000000000_000000000_000000000.0 - b * 841470_984807896_506652502_321630298.0) <= 1.0
    requires Abs(bc * 1000000_000000000_000000000_000000000.0 - b * 540302_305868139_717400936_607442976.0) <= 1.0
    requires Abs(sa * 1000000_000000000_000000000_000000000.0 - a * 841470_984807896_506652502_321630298.0) <= 1.0
    ensures Near(ac + bs, bc - sa, q, 2.0 * e)
  {
    TurnedReal(p, q, p.x as real, p.y as real, q.x as real, q.y as real);
    TurnOne(a, b, ac, bs, p.x as real, p.y as real, q.x as real, e);
    TurnOne(b, -a, bc, -sa, p.y as real, -(p.x as real), q.y as real, e);
  }

  /** A product with a factor known to a unit. */
  lemma Part(a: real, c: real, m: real, k: real) returns (ac: real)
    requires -1.0 <= a <= 1.0 && Abs(c * m - k) <= 1.0
    ensures ac == a * c && Abs(ac * m - a * k) <= 1.0
  {
    ac := a * c;
    ProductBound(a, c * m - k);
    assert ac * m - a * k == a * (c * m - k);
  }

  predicate IsTurn(a: real, b: real, a': real, b': real, s: real, c: real) {
    a' == a * c + b * s && b' == b * c - a * s
  }

  lemma AngleTurns(s: real, c: real, n: nat)
    ensures IsTurn(Sin(s, c, n), Cos(s, c, n), Sin(s, c, n + 1), Cos(s, c, n + 1), s, c)
  {
  }

  lemma TurnParts(a: real, b: real, a': real, b': real, s: real, c: real)
      returns (ac: real, bs: real, bc: real, sa: real)
    requires FirstNear(s, c) && InUnit(a, b) && IsTurn(a, b, a', b', s, c)
    ensures a' == ac + bs && b' == bc - sa
    ensures Abs(ac * 1000000_000000000_000000000_000000000.0 - a * 540302_305868139_717400936_607442976.0) <= 1.0
    ensures Abs(bs * 1000000_000000000_000000000_000000000.0 - b * 841470_984807896_506652502_321630298.0) <= 1.0
    ensures Abs(bc * 1000000_000000000_000000000_000000000.0 - b * 540302_305868139_717400936_607442976.0) <= 1.0
    ensures Abs(sa * 1000000_000000000_000000000_000000000.0 - a * 841470_984807896_506652502_321630298.0) <= 1.0
  {
    ac := Part(a, c, 1000000_000000000_000000000_000000000.0, 540302_305868139_717400936_607442976.0);
    bs := Part(b, s, 1000000_000000000_000000000_000000000.0, 841470_984807896_506652502_321630298.0);
    bc := Part(b, c, 1000000_000000000_000000000_000000000.0, 540302_305868139_717400936_607442976.0);
    sa := Part(a, s, 1000000_000000000_000000000_000000000.0, 841470_984807896_506652502_321630298.0);
  }

  lemma NearNext(a: real, b: real, a': real, b': real, s: real, c: real, p: Point, q: Point, e: real)
    requires FirstNear(s, c) && InUnit(a, b) && Near(a, b, p, e) && Turned(p, q) && e >= 8.0
    requires IsTurn(a, b, a', b', s, c)
    ensures Near(a', b', q, 2.0 * e)
  {
    var ac, bs, bc, sa := TurnParts(a, b, a', b', s, c);
    TurnNear(a, b, ac, bs, bc, sa, p, q, e);
  }

  function Error(n: nat): real {
    if n == 0 then 8.0 else 2.0 * Error(n - 1)
  }

  lemma SinCosBounds(s: real, c: real, n: nat)
    requires AngleOne(s, c)
    ensures InUnit(Sin(s, c, n), Cos(s, c, n))
  {
    SinCosOnCircle(s, c, n);
    CircleBound(Sin(s, c, n), Cos(s, c, n));
  }

  lemma {:induction false} RowNear(s: real, c: real, n: nat)
    requires AngleOne(s, c) && n <= 64
    ensures Near(Sin(s, c, n), Cos(s, c, n), Row(n), Error(n)) && Error(n) >= 8.0
  {
    if n > 0 {
      RowNear(s, c, n - 1);
      Turns(n - 1);
      SinCosBounds(s, c, n - 1);
      FirstPointOf(s, c);
      AngleTurns(s, c, n - 1);
      NearNext(Sin(s, c, n - 1), Cos(s, c, n - 1), Sin(s, c, n), Cos(s, c, n), s, c, Row(n - 1), Row(n), Error(n - 1));
    }
  }

  lemma Error8(n: nat)
    ensures Error(n + 8) == 256.0 * Error(n)
  {
    assert Error(n + 2) == 4.0 * Error(n);
    assert Error(n + 4) == 4.0 * Error(n + 2);
    assert Error(n + 6) == 4.0 * Error(n + 4);
  }

  lemma {:induction false} ErrorGrows(n: nat, m: nat)
    requires n <= m
    ensures 0.0 < Error(n) <= Error(m)
  {
    if n < m {
      ErrorGrows(n, m - 1);
    } else if n > 0 {
      ErrorGrows(n - 1, n - 1);
    }
  }

  /** 2^67 units. */
  lemma ErrorBound(n: nat)
    requires n <= 64
    ensures Error(n) <= 147573952589676412928.0
  {
    ErrorGrows(n, 64);
    Error8(0);
    Error8(8);
    Error8(16);
    Error8(24);
    Error8(32);
    Error8(40);
    Error8(48);
    Error8(56);
  }

  // ------------------------------------------------------------------ the table

  function Size(x: int): nat {
    if x < 0 then -x else x
  }

  /** The point gives t when cut down, and what is cut off is nowhere near 0 or 1. */
  predicate Gives(p: Point, t: int) {
    && t * 1000000_000000000_000000000_000000000 + 1000_000000000_000000000_000000000 <= Size(p.x) * 4294967296
    && Size(p.x) * 4294967296 <= t * 1000000_000000000_000000000_000000000 + 999000_000000000_000000000_000000000
  }

  predicate IsIntegerPart(t: int, x: real) {
    t as real <= x < (t + 1) as real
  }

  /** t is the integer part of 4294967296 times the absolute value of the sine of n. */
  ghost predicate IsSineConstant(t: int, n: nat) {
    forall s: real, c: real :: AngleOne(s, c) ==> IsIntegerPart(t, 4294967296.0 * Abs(Sin(s, c, n)))
  }

  lemma CutDown(a: real, b: real, p: Point, t: int, e: real)
    requires Gives(p, t) && Near(a, b, p, e) && e <= 147573952589676412928.0
    ensures IsIntegerPart(t, 4294967296.0 * Abs(a))
  {
  }

  lemma GivesSine(t: int, n: nat)
    requires n <= 64 && Gives(Row(n), t)
    ensures IsSineConstant(t, n)
  {
    forall s: real, c: real | AngleOne(s, c) ensures IsIntegerPart(t, 4294967296.0 * Abs(Sin(s, c, n))) {
      RowNear(s, c, n);
      ErrorBound(n);
      CutDown(Sin(s, c, n), Cos(s, c, n), Row(n), t, Error(n));
    }
  }
}
