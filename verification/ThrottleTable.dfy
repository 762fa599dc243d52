/** The logarithmic throttle curve in use (mainboard/main/hardware.c). */
module ThrottleTable {
  import opened Common

  /** A curve from an 8-bit throttle to a PWM value: pressing nothing gives no power. */
  predicate IsCurve(m: seq<u16>) { |m| == 256 && m[0] == 0 }

  type ThrottleMap = m: seq<u16> | IsCurve(m) witness seq(256, _ => 0)

  const ROW0: seq<u16> := [0, 2457, 2936, 3276, 3540, 3755, 3938, 4095, 4235, 4359, 4472, 4574, 4669, 4757, 4838, 4914]
  const ROW16: seq<u16> := [4986, 5054, 5117, 5178, 5236, 5291, 5343, 5394, 5442, 5488, 5533, 5576, 5617, 5657, 5696, 5733]
  const ROW32: seq<u16> := [5770, 5805, 5839, 5873, 5905, 5937, 5967, 5997, 6026, 6055, 6083, 6110, 6136, 6162, 6188, 6213]
  const ROW48: seq<u16> := [6237, 6261, 6284, 6307, 6330, 6352, 6373, 6395, 6416, 6436, 6456, 6476, 6496, 6515, 6534, 6553]
  const ROW64: seq<u16> := [6571, 6589, 6607, 6624, 6641, 6658, 6675, 6692, 6708, 6724, 6740, 6756, 6771, 6786, 6801, 6816]
  const ROW80: seq<u16> := [6831, 6845, 6860, 6874, 6888, 6902, 6915, 6929, 6942, 6955, 6968, 6981, 6994, 7007, 7019, 7032]
  const ROW96: seq<u16> := [7044, 7056, 7068, 7080, 7092, 7103, 7115, 7126, 7138, 7149, 7160, 7171, 7182, 7193, 7203, 7214]
  const ROW112: seq<u16> := [7224, 7235, 7245, 7255, 7265, 7275, 7285, 7295, 7305, 7315, 7325, 7334, 7344, 7353, 7362, 7372]
  const ROW128: seq<u16> := [7381, 7390, 7399, 7408, 7417, 7426, 7435, 7443, 7452, 7460, 7469, 7477, 7486, 7494, 7503, 7511]
  const ROW144: seq<u16> := [7519, 7527, 7535, 7543, 7551, 7559, 7567, 7575, 7582, 7590, 7598, 7605, 7613, 7620, 7628, 7635]
  const ROW160: seq<u16> := [7643, 7650, 7657, 7664, 7672, 7679, 7686, 7693, 7700, 7707, 7714, 7721, 7728, 7734, 7741, 7748]
  const ROW176: seq<u16> := [7755, 7761, 7768, 7774, 7781, 7788, 7794, 7800, 7807, 7813, 7820, 7826, 7832, 7838, 7845, 7851]
  const ROW192: seq<u16> := [7857, 7863, 7869, 7875, 7881, 7887, 7893, 7899, 7905, 7911, 7917, 7922, 7928, 7934, 7940, 7945]
  const ROW208: seq<u16> := [7951, 7957, 7962, 7968, 7973, 7979, 7984, 7990, 7995, 8001, 8006, 8012, 8017, 8022, 8028, 8033]
  const ROW224: seq<u16> := [8038, 8043, 8049, 8054, 8059, 8064, 8069, 8074, 8079, 8084, 8090, 8095, 8100, 8105, 8109, 8114]
  const ROW240: seq<u16> := [8119, 8124, 8129, 8134, 8139, 8144, 8148, 8153, 8158, 8163, 8167, 8172, 8177, 8181, 8186, 8191]

  function Quarter0(): seq<u16> { ROW0 + ROW16 + ROW32 + ROW48 }
  function Quarter1(): seq<u16> { ROW64 + ROW80 + ROW96 + ROW112 }
  function Quarter2(): seq<u16> { ROW128 + ROW144 + ROW160 + ROW176 }
  function Quarter3(): seq<u16> { ROW192 + ROW208 + ROW224 + ROW240 }

  function ThrottleMapHigh(): (m: seq<u16>) {
    Quarter0() + Quarter1() + Quarter2() + Quarter3()
  }

  ghost predicate Ascending(s: seq<u16>) {
    forall i, j :: 0 <= i < j < |s| ==> s[i] < s[j]
  }

  lemma Join(a: seq<u16>, b: seq<u16>)
    requires Ascending(a) && Ascending(b) && a != [] && b != [] && a[|a| - 1] < b[0]
    ensures Ascending(a + b)
  {
    var c := a + b;
    forall i, j | 0 <= i < j < |c| ensures c[i] < c[j] {
      if i < |a| <= j {
        assert a[i] <= a[|a| - 1] && b[0] <= b[j - |a|];
      }
    }
  }

  lemma Join4(a: seq<u16>, b: seq<u16>, c: seq<u16>, d: seq<u16>)
    requires Ascending(a) && Ascending(b) && Ascending(c) && Ascending(d)
    requires a != [] && b != [] && c != [] && d != []
    requires a[|a| - 1] < b[0] && b[|b| - 1] < c[0] && c[|c| - 1] < d[0]
    ensures Ascending(a + b + c + d)
  {
    Join(a, b);
    Join(a + b, c);
    Join(a + b + c, d);
  }

  lemma Quarter0Ascends()
    ensures Ascending(Quarter0())
  {
    Join4(ROW0, ROW16, ROW32, ROW48);
  }

  lemma Quarter1Ascends()
    ensures Ascending(Quarter1())
  {
    Join4(ROW64, ROW80, ROW96, ROW112);
  }

  lemma Quarter2Ascends()
    ensures Ascending(Quarter2())
  {
    Join4(ROW128, ROW144, ROW160, ROW176);
  }

  lemma Quarter3Ascends()
    ensures Ascending(Quarter3())
  {
    Join4(ROW192, ROW208, ROW224, ROW240);
  }

  /** The table in use has 256 entries, starts at no power, rises with every step of the
      trigger and ends at the full scale of 13 bits. */
  lemma TableIsCurve()
    ensures var m := ThrottleMapHigh();
      IsCurve(m) && Ascending(m) && m[255] == 8191 && forall t :: 0 <= t < 256 ==> m[t] <= 8191
  {
    var m := ThrottleMapHigh();
    Quarter0Ascends();
    Quarter1Ascends();
    Quarter2Ascends();
    Quarter3Ascends();
    Join4(Quarter0(), Quarter1(), Quarter2(), Quarter3());
    assert m[0] == ROW0[0] && m[255] == ROW240[15];
    forall t | 0 <= t < 256 ensures m[t] <= 8191 {
      assert t < 255 ==> m[t] < m[255];
    }
  }
}
