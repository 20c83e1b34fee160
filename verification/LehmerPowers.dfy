/**
 The powers of the generator's factor modulo 2^31 - 1 whose exponents are (M - 1) / p for the primes p
 that divide M - 1. Each is computed bit by bit; a line gives the power so far, the quotient by M and
 the next power.
 */
module LehmerPowers {
  import opened Lehmer

  /** A to the n-th, modulo M. */
  ghost function Power(n: nat): nat {
    if n == 0 then 1 else Power(n - 1) * A % M
  }

  ghost predicate Is(e: nat, v: nat) {
    Power(e) == v
  }

  lemma ModTimes(x: nat, y: nat)
    ensures (x % M) * y % M == x * y % M
  {
    var k, r := x / M, x % M;
    var q, s := r * y / M, r * y % M;
    assert x * y == (k * y + q) * M + s by {
      assert x * y == (k * M + r) * y;
    }
    RemainderIs(x * y, k * y + q, s);
  }

  lemma TimesTwice(a: nat, b: nat, c: nat)
    ensures (a * b % M) * c % M == a * (b * c % M) % M
  {
    ModTimes(a * b, c);
    ModTimes(b * c, a);
    assert a * b * c == b * c * a;
    assert (b * c % M) * a == a * (b * c % M);
  }

  lemma {:induction false} PowerPlus(m: nat, n: nat)
    ensures Power(m + n) == Power(m) * Power(n) % M
  {
    if n == 0 {
      PowerBelow(m);
      RemainderIs(Power(m), 0, Power(m));
    } else {
      PowerPlus(m, n - 1);
      TimesTwice(Power(m), Power(n - 1), A);
    }
  }

  lemma PowerBelow(n: nat)
    ensures Power(n) < M
  {
  }

  lemma Even(e: nat, v: nat, q: nat, w: nat) returns (e': nat)
    requires Is(e, v) && v * v == q * 0x7fff_ffff + w && w < 0x7fff_ffff
    ensures e' == 2 * e && Is(e', w)
  {
    e' := 2 * e;
    PowerPlus(e, e);
    RemainderIs(v * v, q, w);
  }

  lemma Odd(e: nat, v: nat, q: nat, w: nat) returns (e': nat)
    requires Is(e, v) && v * v * 16807 == q * 0x7fff_ffff + w && w < 0x7fff_ffff
    ensures e' == 2 * e + 1 && Is(e', w)
  {
    e' := 2 * e + 1;
    PowerPlus(e, e);
    ModTimes(v * v, A);
    RemainderIs(v * v * A, q, w);
  }

  lemma Power2(zero: nat) returns (e: nat)
    requires zero == 0
    ensures 2 * e == M - 1 && Is(e, 2147483646)
  {
    e := zero;
    e := Odd(e, 1, 0, 16807);
    e := Odd(e, 16807, 2210, 1622650073);
    e := Odd(e, 1622650073, 20606777505697, 101027544);
    e := Odd(e, 101027544, 79880343795, 114807987);
    e := Odd(e, 114807987, 103158386138, 1954899097);
    e := Odd(e, 1954899097, 29909491305262, 1108728549);
    e := Odd(e, 1108728549, 9620791340602, 2014119113);
    e := Odd(e, 2014119113, 31749042787156, 685428651);
    e := Odd(e, 685428651, 3676925603767, 268317158);
    e := Odd(e, 268317158, 563452389790, 754609818);
    e := Odd(e, 754609818, 4456616228906, 994734886);
    e := Odd(e, 994734886, 7744172764823, 1083014291);
    e := Odd(e, 1083014291, 9179704675745, 1655627552);
    e := Odd(e, 1655627552, 21452881054676, 1181132756);
    e := Odd(e, 1181132756, 10918368864620, 1079224412);
    e := Odd(e, 1079224412, 9115570529787, 816826219);
    e := Odd(e, 816826219, 5221793265592, 817222503);
    e := Odd(e, 817222503, 5226861210374, 103492285);
    e := Odd(e, 103492285, 83825525814, 596864917);
    e := Odd(e, 596864917, 2788126276123, 1872592842);
    e := Odd(e, 1872592842, 27443977374205, 2031328313);
    e := Odd(e, 2031328313, 32293906114335, 1799481238);
    e := Odd(e, 1799481238, 25342822424033, 1043219357);
    e := Odd(e, 1043219357, 8517489528969, 566127400);
    e := Odd(e, 566127400, 2508353171430, 1470714790);
    e := Odd(e, 1470714790, 16928452310198, 797756594);
    e := Odd(e, 797756594, 4980823357127, 1098008483);
    e := Odd(e, 1098008483, 9435647880038, 706645637);
    e := Odd(e, 706645637, 3908082277510, 1877990613);
    e := Odd(e, 1877990613, 27602420581071, 2147483646);
  }

  lemma Power3(zero: nat) returns (e: nat)
    requires zero == 0
    ensures 3 * e == M - 1 && Is(e, 634005911)
  {
    e := zero;
    e := Odd(e, 1, 0, 16807);
    e := Even(e, 16807, 0, 282475249);
    e := Odd(e, 282475249, 624483740091, 1144108930);
    e := Even(e, 1144108930, 609543753, 2007237709);
    e := Odd(e, 2007237709, 31532466950512, 896544303);
    e := Even(e, 896544303, 374294671, 2110010672);
    e := Odd(e, 2110010672, 34844131047893, 1864546517);
    e := Even(e, 1864546517, 1618887165, 881140534);
    e := Odd(e, 881140534, 6076460717996, 1442645480);
    e := Even(e, 1442645480, 969146369, 1987502657);
    e := Odd(e, 1987502657, 30915464103769, 237955200);
    e := Even(e, 237955200, 26366988, 1656394764);
    e := Odd(e, 1656394764, 21472768041046, 80227910);
    e := Even(e, 80227910, 2997237, 99284761);
    e := Odd(e, 99284761, 77148151400, 1283266847);
    e := Even(e, 1283266847, 766838808, 544348633);
    e := Odd(e, 544348633, 2319074005699, 1029451770);
    e := Even(e, 1029451770, 493494303, 1175969859);
    e := Odd(e, 1175969859, 10823126035944, 123152199);
    e := Even(e, 123152199, 7062435, 448035156);
    e := Odd(e, 448035156, 1571030154395, 600776587);
    e := Even(e, 600776587, 168072296, 313625057);
    e := Odd(e, 313625057, 769806973943, 154745822);
    e := Even(e, 154745822, 11150850, 1401305734);
    e := Odd(e, 1401305734, 15368310730002, 544774798);
    e := Even(e, 544774798, 138198761, 1252779437);
    e := Odd(e, 1252779437, 12283144679406, 1568664301);
    e := Even(e, 1568664301, 1145856310, 1695056031);
    e := Odd(e, 1695056031, 22486841146545, 634005912);
    e := Even(e, 634005912, 187178839, 634005911);
  }

  lemma Power7(zero: nat) returns (e: nat)
    requires zero == 0
    ensures 7 * e == M - 1 && Is(e, 1600955193)
  {
    e := zero;
    e := Odd(e, 1, 0, 16807);
    e := Even(e, 16807, 0, 282475249);
    e := Even(e, 282475249, 37156169, 984943658);
    e := Odd(e, 984943658, 7592470461575, 1458777923);
    e := Even(e, 1458777923, 990942600, 16531729);
    e := Even(e, 16531729, 127264, 704877633);
    e := Odd(e, 704877633, 3888550956404, 595028635);
    e := Even(e, 595028635, 164871605, 877819790);
    e := Even(e, 877819790, 358823493, 338725129);
    e := Odd(e, 338725129, 897956230937, 2069048048);
    e := Even(e, 2069048048, 1993477263, 1973792143);
    e := Even(e, 1973792143, 1814149052, 1377979805);
    e := Odd(e, 1377979805, 14860931772486, 184149733);
    e := Even(e, 184149733, 15791097, 1588280530);
    e := Even(e, 1588280530, 1174693481, 1292075693);
    e := Odd(e, 1292075693, 13065807265442, 634967969);
    e := Even(e, 634967969, 187747330, 713072451);
    e := Even(e, 713072451, 236775875, 808531276);
    e := Odd(e, 808531276, 5116276216053, 196288741);
    e := Even(e, 196288741, 17941589, 864669998);
    e := Even(e, 864669998, 348153619, 1994951511);
    e := Odd(e, 1994951511, 31147631153798, 1617773341);
    e := Even(e, 1617773341, 1218724336, 1089368889);
    e := Even(e, 1089368889, 552611694, 315126303);
    e := Odd(e, 315126303, 777194365783, 1491475262);
    e := Even(e, 1491475262, 1035862815, 1410082339);
    e := Even(e, 1410082339, 925889333, 1210473470);
    e := Odd(e, 1210473470, 11467556420741, 394883873);
    e := Even(e, 394883873, 72612088, 1600955193);
  }

  lemma Power11(zero: nat) returns (e: nat)
    requires zero == 0
    ensures 11 * e == M - 1 && Is(e, 298192073)
  {
    e := zero;
    e := Odd(e, 1, 0, 16807);
    e := Even(e, 16807, 0, 282475249);
    e := Odd(e, 282475249, 624483740091, 1144108930);
    e := Odd(e, 1144108930, 10244601872380, 823564440);
    e := Odd(e, 823564440, 5308300588653, 1264817709);
    e := Even(e, 1264817709, 744948088, 156091745);
    e := Odd(e, 156091745, 190686613610, 753799505);
    e := Even(e, 753799505, 264595120, 462242385);
    e := Even(e, 462242385, 99496926, 978719103);
    e := Even(e, 978719103, 446052794, 1763464891);
    e := Odd(e, 1763464891, 24338509034997, 702899908);
    e := Even(e, 702899908, 230068471, 1503614727);
    e := Odd(e, 1503614727, 17694303659837, 130893364);
    e := Odd(e, 130893364, 134089753805, 1854261437);
    e := Odd(e, 1854261437, 26909291760328, 2117257767);
    e := Even(e, 2117257767, 2087457316, 2001314837);
    e := Odd(e, 2001314837, 31346652167412, 1652403619);
    e := Even(e, 1652403619, 1271459144, 515678993);
    e := Even(e, 515678993, 123830895, 1815619984);
    e := Even(e, 1815619984, 1535041224, 289296328);
    e := Odd(e, 289296328, 655007355770, 938103098);
    e := Even(e, 938103098, 409799359, 473615331);
    e := Odd(e, 473615331, 1755544485368, 1921524631);
    e := Odd(e, 1921524631, 28896965959070, 1008979637);
    e := Odd(e, 1008979637, 7967556239905, 1317948048);
    e := Even(e, 1317948048, 808847629, 1034787341);
    e := Odd(e, 1034787341, 8380357563795, 1819912402);
    e := Even(e, 1819912402, 1542307973, 298192073);
  }

  lemma Power31(zero: nat) returns (e: nat)
    requires zero == 0
    ensures 31 * e == M - 1 && Is(e, 16384)
  {
    e := zero;
    e := Odd(e, 1, 0, 16807);
    e := Even(e, 16807, 0, 282475249);
    e := Even(e, 282475249, 37156169, 984943658);
    e := Even(e, 984943658, 451744538, 1457850878);
    e := Even(e, 1457850878, 989683523, 1137522503);
    e := Odd(e, 1137522503, 10126988769233, 563613512);
    e := Even(e, 563613512, 147922053, 1060806853);
    e := Even(e, 1060806853, 524013852, 1400285365);
    e := Even(e, 1400285365, 913068235, 175530180);
    e := Even(e, 175530180, 14347417, 706642601);
    e := Odd(e, 706642601, 3908048696571, 108218770);
    e := Even(e, 108218770, 5453500, 111398400);
    e := Even(e, 111398400, 5778671, 2048666863);
    e := Even(e, 2048666863, 1954397148, 480822013);
    e := Even(e, 480822013, 107656143, 1593778648);
    e := Odd(e, 1593778648, 19879998311735, 1117044983);
    e := Even(e, 1117044983, 581047262, 766345775);
    e := Even(e, 766345775, 273476283, 1275506524);
    e := Even(e, 1275506524, 757592214, 2107038118);
    e := Even(e, 2107038118, 2067354336, 1590438532);
    e := Odd(e, 1590438532, 19796759750343, 389467447);
    e := Even(e, 389467447, 70633782, 501934855);
    e := Even(e, 501934855, 117318052, 495975381);
    e := Even(e, 495975381, 114548755, 411385676);
    e := Even(e, 411385676, 78807666, 424739074);
    e := Odd(e, 424739074, 1411902692579, 2147483519);
    e := Even(e, 2147483519, 2147483391, 16384);
  }

  lemma Power151(zero: nat) returns (e: nat)
    requires zero == 0
    ensures 151 * e == M - 1 && Is(e, 1013763951)
  {
    e := zero;
    e := Odd(e, 1, 0, 16807);
    e := Odd(e, 16807, 2210, 1622650073);
    e := Even(e, 1622650073, 1226083031, 470211272);
    e := Odd(e, 470211272, 1730399601868, 1784484492);
    e := Odd(e, 1784484492, 24922172108667, 197493099);
    e := Even(e, 197493099, 18162431, 590357944);
    e := Even(e, 590357944, 162293437, 70982397);
    e := Odd(e, 70982397, 39433166865, 1719533808);
    e := Even(e, 1719533808, 1376865672, 2119315080);
    e := Even(e, 2119315080, 2091516000, 876554400);
    e := Even(e, 876554400, 357789740, 444978220);
    e := Even(e, 444978220, 92203550, 454021550);
    e := Even(e, 454021550, 95989353, 2010792109);
    e := Even(e, 2010792109, 1882801254, 2100574543);
    e := Even(e, 2100574543, 2054690109, 1969511326);
    e := Odd(e, 1969511326, 30358289627764, 63809424);
    e := Odd(e, 63809424, 31866178411, 489374315);
    e := Even(e, 489374315, 111519927, 634585456);
    e := Odd(e, 634585456, 3151668734056, 1344438120);
    e := Odd(e, 1344438120, 14146270898221, 1422968813);
    e := Even(e, 1422968813, 942889714, 1031122011);
    e := Even(e, 1031122011, 495096948, 2059074765);
    e := Odd(e, 2059074765, 33182153418400, 597511775);
    e := Even(e, 597511775, 166250542, 1013763951);
  }

  lemma Power331(zero: nat) returns (e: nat)
    requires zero == 0
    ensures 331 * e == M - 1 && Is(e, 759513457)
  {
    e := zero;
    e := Odd(e, 1, 0, 16807);
    e := Odd(e, 16807, 2210, 1622650073);
    e := Even(e, 1622650073, 1226083031, 470211272);
    e := Even(e, 470211272, 102957077, 1115438165);
    e := Even(e, 1115438165, 579376844, 1998097157);
    e := Odd(e, 1998097157, 31245935967667, 585640194);
    e := Even(e, 585640194, 159709917, 1807130337);
    e := Odd(e, 1807130337, 25558731047603, 2043046042);
    e := Odd(e, 2043046042, 32667555879834, 1255820950);
    e := Odd(e, 1255820950, 12342859412665, 662128245);
    e := Odd(e, 662128245, 3431188387615, 182048270);
    e := Odd(e, 182048270, 259378185083, 1868832599);
    e := Odd(e, 1868832599, 27333870776996, 1094535995);
    e := Odd(e, 1094535995, 9376061157219, 1508402482);
    e := Odd(e, 1508402482, 17807166169194, 1349594950);
    e := Even(e, 1349594950, 848158509, 924100177);
    e := Even(e, 924100177, 397656642, 1315497955);
    e := Odd(e, 1315497955, 13543804905873, 880535344);
    e := Odd(e, 880535344, 6068116645175, 150479927);
    e := Odd(e, 150479927, 177221936759, 2134324430);
    e := Even(e, 2134324430, 2121245849, 500693597);
    e := Odd(e, 500693597, 1962024426180, 642181603);
    e := Even(e, 642181603, 192037416, 759513457);
  }
}
