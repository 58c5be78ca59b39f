/** The order of the hash base modulo `2^61 - 1`: which powers of it are one. The proof raises the base
    to the order, where it is one, and to the order divided by each of its prime factors, where it is
    not, and rules out every other exponent by division. */
module Order {
  import opened Division
  import opened Mersenne
  import opened SeqHash
  import opened Blocks

  /** `(P - 1) / 806`. */
  const ORDER: nat := 2860847405972325

  // ---------------------------------------------------------------------------------------
  // Powers of the base, one squaring at a time
  // ---------------------------------------------------------------------------------------

  /** The power, reduced, is `v`; quantified, so that the power of a large literal is never unfolded. */
  ghost predicate Is(e: nat, v: int) {
    forall k: nat :: k == e ==> Pow(BASE, k) % P == v
  }

  lemma Step(e: nat, v: int, f: nat, u: int, w: int)
    requires Is(e, v) && Is(f, u) && v * v * u % P == w
    ensures Is(2 * e + f, w)
  {
    assert Pow(BASE, e) % P == v && Pow(BASE, f) % P == u;
    hide Is, Pow;
    PowAdd(BASE, e, e);
    PowAdd(BASE, e + e, f);
    Combine(Pow(BASE, e), Pow(BASE, f), v, u);
    Named(2 * e + f, w);
  }

  lemma Named(e: nat, v: int)
    requires Pow(BASE, e) % P == v
    ensures Is(e, v)
  {
  }

  lemma Combine(x: int, y: int, v: int, u: int)
    requires x % P == v && y % P == u
    ensures x * x * y % P == v * v * u % P
  {
    CongIsMod(P, x, v);
    CongIsMod(P, y, u);
    hide Cong;
    CongMul(P, x, v, x, v);
    CongMul(P, x * x, v * v, y, u);
    CongIsMod(P, x * x * y, v * v * u);
  }

  lemma IsNothing()
    ensures Is(0, 1)
  {
  }

  lemma IsBase()
    ensures Is(1, 2177342782468422681)
  {
    assert Pow(BASE, 1) == BASE * Pow(BASE, 0);
  }

  lemma Over41By61By151By331()
    ensures Is(22886325, 1733299084562598684)
  {
    hide Is;
    IsBase();
    IsNothing();
    Step(1, 2177342782468422681, 0, 1, 975134145853552920);
    Step(2, 975134145853552920, 1, 2177342782468422681, 635498698360122613);
    Step(5, 635498698360122613, 0, 1, 1045257997921586576);
    Step(10, 1045257997921586576, 1, 2177342782468422681, 676740949615195253);
    Step(21, 676740949615195253, 1, 2177342782468422681, 2046034042301818742);
    Step(43, 2046034042301818742, 1, 2177342782468422681, 103159350793139028);
    Step(87, 103159350793139028, 0, 1, 77704116278988268);
    Step(174, 77704116278988268, 1, 2177342782468422681, 40165351013777768);
    Step(349, 40165351013777768, 0, 1, 797046503304316195);
    Step(698, 797046503304316195, 0, 1, 253420943379604119);
    Step(1396, 253420943379604119, 1, 2177342782468422681, 1982404769273106335);
    Step(2793, 1982404769273106335, 1, 2177342782468422681, 1346656568256797981);
    Step(5587, 1346656568256797981, 0, 1, 239666578742665355);
    Step(11174, 239666578742665355, 1, 2177342782468422681, 2291396594618494141);
    Step(22349, 2291396594618494141, 1, 2177342782468422681, 602251182209443337);
    Step(44699, 602251182209443337, 1, 2177342782468422681, 1101923235107769289);
    Step(89399, 1101923235107769289, 1, 2177342782468422681, 1693200089561438389);
    Step(178799, 1693200089561438389, 0, 1, 155784501099849282);
    Step(357598, 155784501099849282, 1, 2177342782468422681, 240989048304438604);
    Step(715197, 240989048304438604, 1, 2177342782468422681, 876231276093850304);
    Step(1430395, 876231276093850304, 0, 1, 117025658704029768);
    Step(2860790, 117025658704029768, 1, 2177342782468422681, 1362095958514571442);
    Step(5721581, 1362095958514571442, 0, 1, 1386502513302589282);
    Step(11443162, 1386502513302589282, 1, 2177342782468422681, 1733299084562598684);
  }

  lemma Over61By151()
    ensures Is(310590316575, 505251350004617827)
  {
    hide Is;
    Over41By61By151By331();
    IsNothing();
    Step(22886325, 1733299084562598684, 22886325, 1733299084562598684, 936978526366414396);
    Step(68658975, 936978526366414396, 0, 1, 1874617260149124463);
    Step(137317950, 1874617260149124463, 22886325, 1733299084562598684, 355925472118839991);
    Step(297522225, 355925472118839991, 0, 1, 1961641876598100186);
    Step(595044450, 1961641876598100186, 22886325, 1733299084562598684, 779617276022211832);
    Step(1212975225, 779617276022211832, 0, 1, 613570707577358646);
    Step(2425950450, 613570707577358646, 0, 1, 1344862341342556274);
    Step(4851900900, 1344862341342556274, 0, 1, 2276499667011092507);
    Step(9703801800, 2276499667011092507, 0, 1, 1492744801472971889);
    Step(19407603600, 1492744801472971889, 0, 1, 751352393295914870);
    Step(38815207200, 751352393295914870, 0, 1, 617203472025938494);
    Step(77630414400, 617203472025938494, 22886325, 1733299084562598684, 1656002763289198441);
    Step(155283715125, 1656002763289198441, 22886325, 1733299084562598684, 505251350004617827);
  }

  lemma Over61()
    ensures Is(46899137802825, 4294967296)
  {
    hide Is;
    Over61By151();
    IsNothing();
    Step(310590316575, 505251350004617827, 0, 1, 1366915584163496484);
    Step(621180633150, 1366915584163496484, 0, 1, 1441570406225428023);
    Step(1242361266300, 1441570406225428023, 310590316575, 505251350004617827, 1555477003157655539);
    Step(2795312849175, 1555477003157655539, 0, 1, 480960395838783159);
    Step(5590625698350, 480960395838783159, 310590316575, 505251350004617827, 1423447718665975356);
    Step(11491841713275, 1423447718665975356, 310590316575, 505251350004617827, 1961739896946446313);
    Step(23294273743125, 1961739896946446313, 310590316575, 505251350004617827, 4294967296);
  }

  lemma Over151()
    ensures Is(18946009311075, 1742282037361677682)
  {
    hide Is;
    Over61By151();
    IsNothing();
    Step(310590316575, 505251350004617827, 310590316575, 505251350004617827, 1699352486012361082);
    Step(931770949725, 1699352486012361082, 310590316575, 505251350004617827, 734207729024345504);
    Step(2174132216025, 734207729024345504, 310590316575, 505251350004617827, 195528358937047676);
    Step(4658854748625, 195528358937047676, 0, 1, 1120749880773054498);
    Step(9317709497250, 1120749880773054498, 310590316575, 505251350004617827, 1742282037361677682);
  }

  lemma Over41By331()
    ensures Is(210805939575, 217800365900403372)
  {
    hide Is;
    Over41By61By151By331();
    IsNothing();
    Step(22886325, 1733299084562598684, 0, 1, 2225693136458027114);
    Step(45772650, 2225693136458027114, 0, 1, 1232424509730108500);
    Step(91545300, 1232424509730108500, 0, 1, 1630126828667560433);
    Step(183090600, 1630126828667560433, 22886325, 1733299084562598684, 1076999172122352497);
    Step(389067525, 1076999172122352497, 22886325, 1733299084562598684, 627765171114675122);
    Step(801021375, 627765171114675122, 22886325, 1733299084562598684, 1057455525126477688);
    Step(1624929075, 1057455525126477688, 22886325, 1733299084562598684, 1370249505478131576);
    Step(3272744475, 1370249505478131576, 22886325, 1733299084562598684, 306507270366244553);
    Step(6568375275, 306507270366244553, 22886325, 1733299084562598684, 621884353395764698);
    Step(13159636875, 621884353395764698, 22886325, 1733299084562598684, 283744394552381513);
    Step(26342160075, 283744394552381513, 0, 1, 367733175340847298);
    Step(52684320150, 367733175340847298, 22886325, 1733299084562598684, 1830208168922610535);
    Step(105391526625, 1830208168922610535, 22886325, 1733299084562598684, 217800365900403372);
  }

  lemma Over41()
    ensures Is(69776765999325, 439424789145975530)
  {
    hide Is;
    Over41By331();
    IsNothing();
    Step(210805939575, 217800365900403372, 0, 1, 739845474461238227);
    Step(421611879150, 739845474461238227, 210805939575, 217800365900403372, 202713288586614273);
    Step(1054029697875, 202713288586614273, 0, 1, 931746449706576049);
    Step(2108059395750, 931746449706576049, 0, 1, 1391107452710071727);
    Step(4216118791500, 1391107452710071727, 210805939575, 217800365900403372, 475679504115031362);
    Step(8643043522575, 475679504115031362, 0, 1, 1240167696007649384);
    Step(17286087045150, 1240167696007649384, 210805939575, 217800365900403372, 961651073656416065);
    Step(34782980029875, 961651073656416065, 210805939575, 217800365900403372, 439424789145975530);
  }

  lemma Over331()
    ensures Is(8643043522575, 475679504115031362)
  {
    hide Is;
    Over41By331();
    IsNothing();
    Step(210805939575, 217800365900403372, 0, 1, 739845474461238227);
    Step(421611879150, 739845474461238227, 210805939575, 217800365900403372, 202713288586614273);
    Step(1054029697875, 202713288586614273, 0, 1, 931746449706576049);
    Step(2108059395750, 931746449706576049, 0, 1, 1391107452710071727);
    Step(4216118791500, 1391107452710071727, 210805939575, 217800365900403372, 475679504115031362);
  }

  lemma Over9By25By7By11By1321()
    ensures Is(125002481, 185699862698100186)
  {
    hide Is;
    IsBase();
    IsNothing();
    Step(1, 2177342782468422681, 1, 2177342782468422681, 2059856395484080820);
    Step(3, 2059856395484080820, 1, 2177342782468422681, 1419311583235712190);
    Step(7, 1419311583235712190, 0, 1, 727556320235726510);
    Step(14, 727556320235726510, 1, 2177342782468422681, 782949503942093301);
    Step(29, 782949503942093301, 1, 2177342782468422681, 2002210547695982846);
    Step(59, 2002210547695982846, 1, 2177342782468422681, 1304559245121239550);
    Step(119, 1304559245121239550, 0, 1, 2236779439641682143);
    Step(238, 2236779439641682143, 0, 1, 1632799573028943766);
    Step(476, 1632799573028943766, 1, 2177342782468422681, 2122496014266625748);
    Step(953, 2122496014266625748, 1, 2177342782468422681, 410768779107668417);
    Step(1907, 410768779107668417, 0, 1, 1328242190622175741);
    Step(3814, 1328242190622175741, 1, 2177342782468422681, 270543002963561746);
    Step(7629, 270543002963561746, 1, 2177342782468422681, 1247758025147754581);
    Step(15259, 1247758025147754581, 0, 1, 57475844338709594);
    Step(30518, 57475844338709594, 0, 1, 896776914027271915);
    Step(61036, 896776914027271915, 0, 1, 133006185167717112);
    Step(122072, 133006185167717112, 1, 2177342782468422681, 2046384203591820754);
    Step(244145, 2046384203591820754, 0, 1, 800496202782366869);
    Step(488290, 800496202782366869, 1, 2177342782468422681, 638070380999433196);
    Step(976581, 638070380999433196, 1, 2177342782468422681, 1968807033760483048);
    Step(1953163, 1968807033760483048, 1, 2177342782468422681, 1514695943143783455);
    Step(3906327, 1514695943143783455, 1, 2177342782468422681, 1570354094621049679);
    Step(7812655, 1570354094621049679, 0, 1, 1522184354380474846);
    Step(15625310, 1522184354380474846, 0, 1, 1683885519751679400);
    Step(31250620, 1683885519751679400, 0, 1, 510196657799126160);
    Step(62501240, 510196657799126160, 1, 2177342782468422681, 185699862698100186);
  }

  lemma Over9By25By7By11()
    ensures Is(165128277401, 619045115434232242)
  {
    hide Is;
    Over9By25By7By11By1321();
    IsNothing();
    Step(125002481, 185699862698100186, 0, 1, 232153865005636173);
    Step(250004962, 232153865005636173, 125002481, 185699862698100186, 1483114766990848354);
    Step(625012405, 1483114766990848354, 0, 1, 437278803786206363);
    Step(1250024810, 437278803786206363, 0, 1, 1576099914100386615);
    Step(2500049620, 1576099914100386615, 125002481, 185699862698100186, 1940704728962304724);
    Step(5125101721, 1940704728962304724, 0, 1, 158510723408510751);
    Step(10250203442, 158510723408510751, 125002481, 185699862698100186, 1907915053622086894);
    Step(20625409365, 1907915053622086894, 0, 1, 925036919414260593);
    Step(41250818730, 925036919414260593, 0, 1, 795867216339926231);
    Step(82501637460, 795867216339926231, 125002481, 185699862698100186, 619045115434232242);
  }

  lemma Over25By7()
    ensures Is(16347699462699, 2178536364724779492)
  {
    hide Is;
    Over9By25By7By11();
    IsNothing();
    Step(165128277401, 619045115434232242, 165128277401, 619045115434232242, 1873909454553758041);
    Step(495384832203, 1873909454553758041, 0, 1, 1784254950735108874);
    Step(990769664406, 1784254950735108874, 0, 1, 1584343007071206620);
    Step(1981539328812, 1584343007071206620, 0, 1, 1929101417420505175);
    Step(3963078657624, 1929101417420505175, 165128277401, 619045115434232242, 151693925780681771);
    Step(8091285592649, 151693925780681771, 165128277401, 619045115434232242, 2178536364724779492);
  }

  lemma Over25()
    ensures Is(114433896238893, 1389376626911244768)
  {
    hide Is;
    Over25By7();
    IsNothing();
    Step(16347699462699, 2178536364724779492, 16347699462699, 2178536364724779492, 701732199842209867);
    Step(49043098388097, 701732199842209867, 16347699462699, 2178536364724779492, 1389376626911244768);
  }

  lemma Over7()
    ensures Is(408692486567475, 1732971556757377027)
  {
    hide Is;
    Over25By7();
    IsNothing();
    Step(16347699462699, 2178536364724779492, 16347699462699, 2178536364724779492, 701732199842209867);
    Step(49043098388097, 701732199842209867, 0, 1, 705333577575349266);
    Step(98086196776194, 705333577575349266, 0, 1, 1365742437309641062);
    Step(196172393552388, 1365742437309641062, 16347699462699, 2178536364724779492, 1732971556757377027);
  }

  lemma Over9By11()
    ensures Is(28897448545175, 768639712988638296)
  {
    hide Is;
    Over9By25By7By11();
    IsNothing();
    Step(165128277401, 619045115434232242, 0, 1, 418016533628619547);
    Step(330256554802, 418016533628619547, 165128277401, 619045115434232242, 843307464287296333);
    Step(825641387005, 843307464287296333, 0, 1, 2239905970117127725);
    Step(1651282774010, 2239905970117127725, 165128277401, 619045115434232242, 734414371755342030);
    Step(3467693825421, 734414371755342030, 165128277401, 619045115434232242, 1290390910503054606);
    Step(7100515928243, 1290390910503054606, 165128277401, 619045115434232242, 1817818005631696560);
    Step(14366160133887, 1817818005631696560, 165128277401, 619045115434232242, 768639712988638296);
  }

  lemma Over9()
    ensures Is(317871933996925, 1764280891523348030)
  {
    hide Is;
    Over9By11();
    IsNothing();
    Step(28897448545175, 768639712988638296, 0, 1, 283447920198879641);
    Step(57794897090350, 283447920198879641, 28897448545175, 768639712988638296, 1557456628768372951);
    Step(144487242725875, 1557456628768372951, 28897448545175, 768639712988638296, 1764280891523348030);
  }

  lemma Over11()
    ensures Is(260077036906575, 145163580560702442)
  {
    hide Is;
    Over9By11();
    IsNothing();
    Step(28897448545175, 768639712988638296, 0, 1, 283447920198879641);
    Step(57794897090350, 283447920198879641, 0, 1, 1829980680776989987);
    Step(115589794180700, 1829980680776989987, 28897448545175, 768639712988638296, 145163580560702442);
  }

  lemma Over1321()
    ensures Is(2165667983325, 589333653513245197)
  {
    hide Is;
    Over9By25By7By11By1321();
    IsNothing();
    Step(125002481, 185699862698100186, 0, 1, 232153865005636173);
    Step(250004962, 232153865005636173, 0, 1, 224738688878892047);
    Step(500009924, 224738688878892047, 0, 1, 1676490744684185229);
    Step(1000019848, 1676490744684185229, 0, 1, 652370835407131799);
    Step(2000039696, 652370835407131799, 125002481, 185699862698100186, 372833001880872989);
    Step(4125081873, 372833001880872989, 125002481, 185699862698100186, 1857021221833049846);
    Step(8375166227, 1857021221833049846, 125002481, 185699862698100186, 871190526988187223);
    Step(16875334935, 871190526988187223, 0, 1, 2302805184965981643);
    Step(33750669870, 2302805184965981643, 125002481, 185699862698100186, 1622951644101728450);
    Step(67626342221, 1622951644101728450, 0, 1, 662303345071661000);
    Step(135252684442, 662303345071661000, 125002481, 185699862698100186, 413212666026245051);
    Step(270630371365, 413212666026245051, 125002481, 185699862698100186, 2300610018593976109);
    Step(541385745211, 2300610018593976109, 0, 1, 1262627606721846118);
    Step(1082771490422, 1262627606721846118, 125002481, 185699862698100186, 589333653513245197);
  }

  lemma Over5()
    ensures Is(572169481194465, 1910184110508252890)
  {
    hide Is;
    Over25();
    IsNothing();
    Step(114433896238893, 1389376626911244768, 0, 1, 19901740585952728);
    Step(228867792477786, 19901740585952728, 114433896238893, 1389376626911244768, 1910184110508252890);
  }

  lemma Over3()
    ensures Is(953615801990775, 636260618972345635)
  {
    hide Is;
    Over9();
    IsNothing();
    Step(317871933996925, 1764280891523348030, 317871933996925, 1764280891523348030, 636260618972345635);
  }

  lemma FullPower()
    ensures Is(2860847405972325, 1)
  {
    hide Is;
    Over7();
    IsNothing();
    Step(408692486567475, 1732971556757377027, 408692486567475, 1732971556757377027, 1100189617750211561);
    Step(1226077459702425, 1100189617750211561, 408692486567475, 1732971556757377027, 1);
  }

  // ---------------------------------------------------------------------------------------
  // The exponents that give one
  // ---------------------------------------------------------------------------------------

  lemma {:induction false} OneTimes(e: nat, k: nat)
    requires Is(e, 1)
    ensures Is(k * e, 1)
  {
    if k == 0 {
      assert k * e == 0;
    } else {
      OneTimes(e, k - 1);
      OnePlus((k - 1) * e, e);
      assert k * e == (k - 1) * e + e;
    }
  }

  lemma OnePlus(a: nat, b: nat)
    requires Is(b, 1)
    ensures Is(a + b, 1) <==> Is(a, 1)
  {
    hide Pow, Cong;
    PowAdd(BASE, a, b);
    CongIsMod(P, Pow(BASE, b), 1);
    CongSelf(P, Pow(BASE, a));
    CongMul(P, Pow(BASE, a), Pow(BASE, a), Pow(BASE, b), 1);
    CongIsMod(P, Pow(BASE, a + b), Pow(BASE, a));
  }

  /** The greatest common divisor of two such exponents is one too. */
  lemma OneAtDivisor(a: nat, b: nat, g: nat, x: int, y: int)
    requires Is(a, 1) && Is(b, 1) && x * a + y * b == g
    ensures Is(g, 1)
  {
    if x >= 0 && y >= 0 {
      OneTimes(a, x);
      OneTimes(b, y);
      OnePlus(x * a, y * b);
    } else if x >= 0 {
      OneTimes(a, x);
      OneTimes(b, -y);
      assert x * a == g + (-y) * b;
      OnePlus(g, (-y) * b);
    } else if y >= 0 {
      OneTimes(a, -x);
      OneTimes(b, y);
      assert y * b == g + (-x) * a;
      OnePlus(g, (-x) * a);
    } else {
      NegativeCombination(a, b, x, y);
    }
  }

  lemma NegativeCombination(a: nat, b: nat, x: int, y: int)
    requires x < 0 && y < 0 && x * a + y * b >= 0
    ensures x * a + y * b == 0 && Is(0, 1)
  {
    assert x * a <= 0 && y * b <= 0;
  }

  ghost predicate Prime(q: nat) {
    forall a: nat, b: nat :: a * b == q ==> a == 1 || b == 1
  }

  /** One of the eleven smallest primes divides the number properly. */
  predicate HasSmallFactor(q: nat) {
    || (q >= 4 && q % 2 == 0)
    || (q >= 9 && q % 3 == 0)
    || (q >= 25 && q % 5 == 0)
    || (q >= 49 && q % 7 == 0)
    || (q >= 121 && q % 11 == 0)
    || (q >= 169 && q % 13 == 0)
    || (q >= 289 && q % 17 == 0)
    || (q >= 361 && q % 19 == 0)
    || (q >= 529 && q % 23 == 0)
    || (q >= 841 && q % 29 == 0)
    || (q >= 961 && q % 31 == 0)
  }

  lemma NoSmallFactor(q: nat)
    requires 1 < q < 1369 && !HasSmallFactor(q)
    ensures Prime(q)
  {
    forall a: nat, b: nat | a * b == q
      ensures a == 1 || b == 1
    {
      if a != 1 && b != 1 {
        SmallFactor(q, if a <= b then a else b, if a <= b then b else a);
      }
    }
  }

  lemma SmallFactor(q: nat, s: nat, l: nat)
    requires 1 < q < 1369 && s * l == q && s <= l && s != 1
    ensures HasSmallFactor(q)
  {
    FactorBound(q, s, l);
    SmallestFactor(s);
    if s % 2 == 0 {
      Factor(q, s, l, 2);
    } else if s % 3 == 0 {
      Factor(q, s, l, 3);
    } else if s % 5 == 0 {
      Factor(q, s, l, 5);
    } else if s % 7 == 0 {
      Factor(q, s, l, 7);
    } else if s % 11 == 0 {
      Factor(q, s, l, 11);
    } else if s % 13 == 0 {
      Factor(q, s, l, 13);
    } else if s % 17 == 0 {
      Factor(q, s, l, 17);
    } else if s % 19 == 0 {
      Factor(q, s, l, 19);
    } else if s % 23 == 0 {
      Factor(q, s, l, 23);
    } else if s % 29 == 0 {
      Factor(q, s, l, 29);
    } else if s % 31 == 0 {
      Factor(q, s, l, 31);
    }
  }

  lemma SmallestFactor(s: nat)
    requires 2 <= s <= 36
    ensures s % 2 == 0 || s % 3 == 0 || s % 5 == 0 || s % 7 == 0 || s % 11 == 0
            || s % 13 == 0 || s % 17 == 0 || s % 19 == 0 || s % 23 == 0 || s % 29 == 0 || s % 31 == 0
  {
    if s % 2 != 0 && s % 3 != 0 && s % 5 != 0 {
      assert s == 7 || s == 11 || s == 13 || s == 17 || s == 19 || s == 23 || s == 29 || s == 31;
    }
  }

  lemma FactorBound(q: nat, s: nat, l: nat)
    requires 1 < q < 1369 && s * l == q && s <= l && s != 1
    ensures 2 <= s <= 36
  {
    assert s == 0 ==> s * l == 0;
    assert s >= 37 ==> (s - 37) * l >= 0;
  }

  lemma Factor(q: nat, s: nat, l: nat, p: nat)
    requires p > 0 && s * l == q && 0 < s <= l && s % p == 0
    ensures q % p == 0 && q >= p * p
  {
    var t := s / p;
    DivMod(s, p);
    assert s * l == (t * l) * p;
    DivUnique(q, p, t * l);
    MultipleGrows(t, p);
    assert (s - p) * l >= 0 && (l - p) * p >= 0;
  }

  /** A prime that does not divide `k` can be taken out of a multiple of `k`. */
  lemma Strip(k: nat, q: nat, r: nat)
    requires Prime(q) && q > 0 && Cong(k, q * r, 0) && !Cong(q, k, 0)
    ensures Cong(k, r, 0)
  {
    var g, x, y, c, d := Bezout(k, q);
    assert d * g == q;
    assert g == 1 by {
      assert k - 0 == Times(c, g);
    }
    var t :| q * r - 0 == Times(t, k);
    TakeOut(k, q, r, x, y, t);
    assert r - 0 == Times(x * r + y * t, k);
  }

  lemma TakeOut(k: nat, q: nat, r: nat, x: int, y: int, t: int)
    requires x * k + y * q == 1 && q * r == t * k
    ensures r == (x * r + y * t) * k
  {
    assert r == (x * k + y * q) * r;
    assert (x * k + y * q) * r == (x * r) * k + y * (q * r);
    assert y * (t * k) == (y * t) * k;
  }

  /** With one at `g` and something else at `ORDER / q`, `q` does not divide `ORDER / g`. */
  lemma NotAFactor(q: nat, n: nat, v: int, g: nat, e: nat)
    requires q > 0 && n * q == ORDER && Is(n, v) && v != 1 && Is(g, 1) && e * g == ORDER
    ensures !Cong(q, e, 0)
  {
    assert Pow(BASE, n) % P == v;
    if Cong(q, e, 0) {
      var t :| e - 0 == Times(t, q);
      assert (t * g - n) * q == (t * q) * g - n * q;
      assert (t * g - n) * q == 0;
      SmallMultiple(t * g - n, q);
      MultipleGrows(t, q);
      OneTimes(g, t);
    }
  }

  lemma No61(g: nat, e: nat)
    requires Is(g, 1) && e * g == ORDER
    ensures Prime(61) && !Cong(61, e, 0)
  {
    hide Is;
    Over61();
    NoSmallFactor(61);
    NotAFactor(61, 46899137802825, 4294967296, g, e);
  }

  lemma No151(g: nat, e: nat)
    requires Is(g, 1) && e * g == ORDER
    ensures Prime(151) && !Cong(151, e, 0)
  {
    hide Is;
    Over151();
    NoSmallFactor(151);
    NotAFactor(151, 18946009311075, 1742282037361677682, g, e);
  }

  lemma No41(g: nat, e: nat)
    requires Is(g, 1) && e * g == ORDER
    ensures Prime(41) && !Cong(41, e, 0)
  {
    hide Is;
    Over41();
    NoSmallFactor(41);
    NotAFactor(41, 69776765999325, 439424789145975530, g, e);
  }

  lemma No331(g: nat, e: nat)
    requires Is(g, 1) && e * g == ORDER
    ensures Prime(331) && !Cong(331, e, 0)
  {
    hide Is;
    Over331();
    NoSmallFactor(331);
    NotAFactor(331, 8643043522575, 475679504115031362, g, e);
  }

  lemma No5(g: nat, e: nat)
    requires Is(g, 1) && e * g == ORDER
    ensures Prime(5) && !Cong(5, e, 0)
  {
    hide Is;
    Over5();
    NoSmallFactor(5);
    NotAFactor(5, 572169481194465, 1910184110508252890, g, e);
  }

  lemma No7(g: nat, e: nat)
    requires Is(g, 1) && e * g == ORDER
    ensures Prime(7) && !Cong(7, e, 0)
  {
    hide Is;
    Over7();
    NoSmallFactor(7);
    NotAFactor(7, 408692486567475, 1732971556757377027, g, e);
  }

  lemma No3(g: nat, e: nat)
    requires Is(g, 1) && e * g == ORDER
    ensures Prime(3) && !Cong(3, e, 0)
  {
    hide Is;
    Over3();
    NoSmallFactor(3);
    NotAFactor(3, 953615801990775, 636260618972345635, g, e);
  }

  lemma No11(g: nat, e: nat)
    requires Is(g, 1) && e * g == ORDER
    ensures Prime(11) && !Cong(11, e, 0)
  {
    hide Is;
    Over11();
    NoSmallFactor(11);
    NotAFactor(11, 260077036906575, 145163580560702442, g, e);
  }

  lemma No1321(g: nat, e: nat)
    requires Is(g, 1) && e * g == ORDER
    ensures Prime(1321) && !Cong(1321, e, 0)
  {
    hide Is;
    Over1321();
    NoSmallFactor(1321);
    NotAFactor(1321, 2165667983325, 589333653513245197, g, e);
  }

  lemma NoneLeft(g: nat, e: nat)
    requires Is(g, 1) && e * g == ORDER
    ensures e == 1
  {
    hide Is, Prime, Cong;
    No3(g, e);
    No5(g, e);
    No7(g, e);
    No11(g, e);
    No41(g, e);
    No61(g, e);
    No151(g, e);
    No331(g, e);
    No1321(g, e);
    assert Cong(e, ORDER, 0) by {
      Whole(e, g);
    }
    Strip(e, 3, 953615801990775);
    Strip(e, 3, 317871933996925);
    Strip(e, 5, 63574386799385);
    Strip(e, 5, 12714877359877);
    Strip(e, 7, 1816411051411);
    Strip(e, 11, 165128277401);
    Strip(e, 41, 4027518961);
    Strip(e, 61, 66024901);
    Strip(e, 151, 437251);
    Strip(e, 331, 1321);
    Strip(e, 1321, 1);
    DividesOne(e);
  }

  lemma Whole(e: nat, g: nat)
    requires e * g == ORDER
    ensures Cong(e, ORDER, 0)
  {
    assert ORDER - 0 == Times(g, e);
  }

  lemma DividesOne(e: nat)
    requires Cong(e, 1, 0)
    ensures e == 1
  {
    var t :| 1 - 0 == Times(t, e);
    MultipleGrows(t, e);
  }

  /** The weight at a distance is one exactly at the multiples of the order. */
  lemma WeightIsOne(d: nat)
    ensures Weight(d) == 1 <==> d % ORDER == 0
  {
    hide Is;
    FullPower();
    IsWeight(d);
    if Is(d, 1) {
      var g, x, y, c, e := Bezout(d, ORDER);
      OneAtDivisor(d, ORDER, g, x, y);
      NoneLeft(g, e);
      DivUnique(d, ORDER, c);
    }
    if d % ORDER == 0 {
      DivMod(d, ORDER);
      OneTimes(ORDER, d / ORDER);
    }
  }

  lemma IsWeight(d: nat)
    ensures Is(d, 1) <==> Weight(d) == 1
  {
  }

  /** Exchanging two blocks goes unnoticed exactly when their words are equal or their distance is a
      multiple of the order: never for different words in a sequence of fewer than `2.8 * 10^15`
      blocks. */
  lemma SwapMissedExactly(front: seq<BlockId>, x: BlockId, between: seq<BlockId>, y: BlockId, back: seq<BlockId>)
    ensures HashOf(front + ([x] + between + [y]) + back) == HashOf(front + ([y] + between + [x]) + back) <==>
            BlockWord(x) == BlockWord(y) || (|between| + 1) % ORDER == 0
  {
    SwapSeen(front, x, between, y, back);
    WeightIsOne(|between| + 1);
  }
}
