/**
 * The unit selection and scaling of convertSizeToHuman; the final rendering with
 * number_format stays with the host (Host.Render.number).
 */
module Sizes {
  datatype Unit = Byte | Kbyte | Mbyte | Gbyte | Tbyte {
    /** How many times the size was divided by 1024. */
    function Index(): nat {
      match this
      case Byte => 0
      case Kbyte => 1
      case Mbyte => 2
      case Gbyte => 3
      case Tbyte => 4
    }

    function Suffix(): string {
      match this
      case Byte => " byte(s)"
      case Kbyte => " Kbyte(s)"
      case Mbyte => " Mbyte(s)"
      case Gbyte => " Gbyte(s)"
      case Tbyte => " Tbyte(s)"
    }
  }

  /** A size as a signed magnitude in a unit, before number_format. */
  datatype Scaled = Scaled(value: real, unit: Unit)

  function Pow1024(k: nat): (r: nat)
    ensures r >= 1
  {
    if k == 0 then 1 else 1024 * Pow1024(k - 1)
  }

  function Abs(x: int): nat {
    if x < 0 then -x else x
  }

  /**
   * The nested conditionals of convertSizeToHuman: strip the sign, step up a unit
   * while one more division by 1024 still leaves more than 1, restore the sign.
   */
  function ScaleSize(size: int): (r: Scaled)
  {
    var negative := size < 0;
    var a: real := (if negative then -size else size) as real;
    var m1 := a / 1024.0;
    var s :=
      if m1 > 1.0 then
        var m2 := m1 / 1024.0;
        if m2 > 1.0 then
          var m3 := m2 / 1024.0;
          if m3 > 1.0 then
            var m4 := m3 / 1024.0;
            if m4 > 1.0 then Scaled(m4, Tbyte) else Scaled(m3, Gbyte)
          else Scaled(m2, Mbyte)
        else Scaled(m1, Kbyte)
      else Scaled(a, Byte);
    if negative then Scaled(-s.value, s.unit) else s
  }

  /**
   * Reference definition of the unit: from unit k, step up while the size exceeds
   * 1024 to the power of the next unit.
   */
  function UnitIndexFrom(n: nat, k: nat): (r: nat)
    requires k <= 4
    ensures k <= r <= 4
    decreases 4 - k
  {
    if k < 4 && n > Pow1024(k + 1) then UnitIndexFrom(n, k + 1) else k
  }

  /**
   * Starting from bytes, the reference unit is the largest k for which the size
   * exceeds 1024^j for every j from 1 to k.
   */
  lemma {:induction false} UnitIndexIsLargest(n: nat, k: nat)
    requires k <= 4
    requires forall j :: 1 <= j <= k ==> n > Pow1024(j)
    ensures var r := UnitIndexFrom(n, k);
      && (forall j :: 1 <= j <= r ==> n > Pow1024(j))
      && (r < 4 ==> n <= Pow1024(r + 1))
    decreases 4 - k
  {
    if k < 4 && n > Pow1024(k + 1) {
      UnitIndexIsLargest(n, k + 1);
    }
  }

  /**
   * convertSizeToHuman picks the reference unit, and the rendered value times
   * 1024^k is the input size, sign included.
   */
  lemma ScaleSizeCorrect(size: int)
    ensures ScaleSize(size).unit.Index() == UnitIndexFrom(Abs(size), 0)
    ensures ScaleSize(size).value * Pow1024(ScaleSize(size).unit.Index()) as real == size as real
  {
    var n := Abs(size);
    var a := n as real;
    assert Pow1024(1) == 1024;
    assert Pow1024(2) == 1048576;
    assert Pow1024(3) == 1073741824;
    assert Pow1024(4) == 1099511627776;
    assert a / 1024.0 > 1.0 <==> n > 1024;
    assert a / 1024.0 / 1024.0 > 1.0 <==> n > 1048576;
    assert a / 1024.0 / 1024.0 / 1024.0 > 1.0 <==> n > 1073741824;
    assert a / 1024.0 / 1024.0 / 1024.0 / 1024.0 > 1.0 <==> n > 1099511627776;
  }

  /** The unit of ScaleSize, characterised without reference to the code's shape. */
  lemma ScaleSizeUnit(size: int)
    ensures var k := ScaleSize(size).unit.Index();
      && (forall j :: 1 <= j <= k ==> Abs(size) > Pow1024(j))
      && (k < 4 ==> Abs(size) <= Pow1024(k + 1))
  {
    ScaleSizeCorrect(size);
    UnitIndexIsLargest(Abs(size), 0);
  }

  /** The boundary: exactly 1024 stays in bytes; 2048 and -2048 become (-)2 Kbyte. */
  lemma ScaleSizeExamples()
    ensures ScaleSize(1023) == Scaled(1023.0, Byte)
    ensures ScaleSize(1024) == Scaled(1024.0, Byte)
    ensures ScaleSize(1025).unit == Kbyte
    ensures ScaleSize(2048) == Scaled(2.0, Kbyte)
    ensures ScaleSize(-2048) == Scaled(-2.0, Kbyte)
  {
  }
}
