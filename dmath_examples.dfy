/** Clients of `DMath` that work small concrete cases of each entry point,
    using nothing but the contracts. */
module DMathExamples {
  import opened DMath

  /** A = [1,2,3], B = [4,5,6]: `add` yields [5,7,9], the oracle accepts it, and it
      rejects [5,7,10] at position 2. */
  method AddExample() {
    var A := new int[3] [1, 2, 3];
    var B := new int[3] [4, 5, 6];
    var C := new int[3];
    Add(A, B, C, 3, 1);
    assert C[..] == [5, 7, 9];
    var ok;
    ghost var at;
    ok, at := VerifyAdd(A, B, C, 3, 1);
    assert ok;
    C[2] := 10;
    ok, at := VerifyAdd(A, B, C, 3, 1);
    assert !ok && at == 2;
  }

  /** The checked `add`: the same sum, and each rejection leaves the output alone. */
  method AddCheckedExample() {
    var C := new int[4] [0, 0, 0, 8];
    var r := AddChecked([1, 2, 3], [4, 5, 6], C);
    assert r == Done && C[..] == [5, 7, 9, 8];
    r := AddChecked([], [4], C);
    assert r == InvalidInput && C[..] == [5, 7, 9, 8];
    r := AddChecked([1, 2], [4], C);
    assert r == InvalidInput && C[..] == [5, 7, 9, 8];
    r := AddChecked([1], [4], null);
    assert r == InvalidInput;
  }

  /** a = 2, X = [1,1,1], Y = [1,2,3]: both forms of `saxpy_1d` yield [3,4,5]. */
  method Saxpy1dExample() {
    var X := new int[3] [1, 1, 1];
    var Y := new int[3] [1, 2, 3];
    var Z := new int[3];
    Saxpy1d(2, X, Y, Z, 3);
    assert Z[..] == [3, 4, 5];
    var W := new int[3];
    var r := Saxpy1dChecked(2, [1, 1, 1], [1, 2, 3], W);
    assert r == Done && W[..] == [3, 4, 5];
    r := Saxpy1dChecked(2, [1, 1], [1, 2, 3], W);
    assert r == InvalidInput;
  }

  /** The 2-by-2 identity times [[1,2],[3,4]] plus a zero Y, into a zeroed Z, gives
      [[1,2],[3,4]]; a non-square A is rejected. */
  method Saxpy2dCheckedExample() {
    var a := [[1, 0], [0, 1]];
    var x := [[1, 2], [3, 4]];
    var y := [[0, 0], [0, 0]];
    var z0 := new int[2] [0, 0];
    var z1 := new int[2] [0, 0];
    var Z := new array<int>[2] [z0, z1];
    var r := Saxpy2dChecked(a, x, y, Z);
    assert r == Done;
    IdentityDot(a, x, 2, 0, 0);
    IdentityDot(a, x, 2, 0, 1);
    IdentityDot(a, x, 2, 1, 0);
    IdentityDot(a, x, 2, 1, 1);
    assert z0[..] == [1, 2] && z1[..] == [3, 4];
    r := Saxpy2dChecked([[1, 0]], x, y, Z);
    assert r == InvalidInput && z0[..] == [1, 2] && z1[..] == [3, 4];
  }

  /** Z is accumulated into, not overwritten: a second call adds the product again. */
  method Saxpy2dAccumulatesExample() {
    var a := [[1, 0], [0, 1]];
    var x := [[1, 2], [3, 4]];
    var y := [[0, 0], [0, 0]];
    var z0 := new int[2] [1, 1];
    var z1 := new int[2] [1, 1];
    var Z := new array<int>[2] [z0, z1];
    var r := Saxpy2dChecked(a, x, y, Z);
    IdentityDot(a, x, 2, 0, 0);
    IdentityDot(a, x, 2, 0, 1);
    IdentityDot(a, x, 2, 1, 0);
    IdentityDot(a, x, 2, 1, 1);
    assert z0[..] == [2, 3] && z1[..] == [4, 5];
  }
}
