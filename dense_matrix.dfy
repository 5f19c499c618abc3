/** The fixed-shape dense matrix of the trainer: a flat row-major buffer of
    NR * NC cells. Every operation that builds a matrix writes into a fresh
    buffer with the same loops as the original and is proved equal to its
    value-level counterpart in DenseSpec; `+=` and `-=` overwrite the buffer
    in place. */
module DenseMatrix {
  import opened Layout
  import S = DenseSpec

  class Matrix {
    const rows: nat
    const cols: nat
    const data: array<real>

    /** The buffer holds exactly NR * NC cells. */
    ghost predicate Valid() {
      data.Length == rows * cols
    }

    /** The value this matrix currently holds. */
    ghost function Value(): (m: S.Mat)
      reads data
      ensures Valid() ==> S.Wf(m)
    {
      S.Mat(rows, cols, data[..])
    }

    /** `Matrix result;`: the right shape, cells not yet written. */
    constructor (nr: nat, nc: nat)
      ensures Valid() && rows == nr && cols == nc && fresh(data)
    {
      rows, cols := nr, nc;
      data := new real[nr * nc];
    }

    /** The literal constructor: exactly NR * NC values, stored in the order given. */
    constructor FromList(nr: nat, nc: nat, input: seq<real>)
      requires |input| == nr * nc
      ensures Valid() && fresh(data)
      ensures Value() == S.Mat(nr, nc, input)
    {
      var buffer := new real[nr * nc];
      for i := 0 to nr * nc
        invariant buffer[..i] == input[..i]
      {
        buffer[i] := input[i];
      }
      rows, cols, data := nr, nc, buffer;
    }

    /** Matrix::zero. */
    constructor Zero(nr: nat, nc: nat)
      ensures Valid() && fresh(data)
      ensures Value() == S.Zero(nr, nc)
    {
      rows, cols := nr, nc;
      data := new real[nr * nc](_ => 0.0);
      new;
      assert data[..] == S.Zero(nr, nc).cells;
    }

    /** The const `at(r, c)`: the cell at flat index r * NC + c. */
    function At(r: nat, c: nat): (x: real)
      reads data
      requires Valid() && r < rows && c < cols
      ensures x == S.Get(Value(), r, c)
    {
      CellInBounds(r, c, rows, cols);
      data[r * cols + c]
    }

    /** `at(r, c) = x` through the mutable `at`. */
    method SetAt(r: nat, c: nat, x: real)
      requires Valid() && r < rows && c < cols
      modifies data
      ensures Value() == S.SetCell(old(Value()), r, c, x)
    {
      CellInBounds(r, c, rows, cols);
      data[r * cols + c] := x;
    }

    /** Matrix::T: a fresh NC x NR matrix; this one is left as it is. */
    method Transpose() returns (result: Matrix)
      requires Valid()
      ensures result.Valid() && fresh(result.data)
      ensures result.Value() == S.Transpose(Value())
    {
      ghost var m := Value();
      result := new Matrix(cols, rows);
      for r := 0 to rows
        invariant forall r': nat, c': nat :: r' < r && c' < cols ==>
                    S.Get(result.Value(), c', r') == S.Get(m, r', c')
      {
        for c := 0 to cols
          invariant forall r': nat, c': nat :: ((r' < r && c' < cols) || (r' == r && c' < c)) ==>
                      S.Get(result.Value(), c', r') == S.Get(m, r', c')
        {
          result.SetAt(c, r, At(r, c));
        }
      }
      forall r': nat, c': nat | r' < cols && c' < rows
        ensures S.Get(result.Value(), r', c') == S.Get(S.Transpose(m), r', c')
      {
        S.TransposeGet(m, c', r');
      }
      S.EqualByCells(result.Value(), S.Transpose(m));
    }

    /** Matrix::apply: a fresh matrix of the same shape holding fn of every cell. */
    method Apply(fn: real -> real) returns (result: Matrix)
      requires Valid()
      ensures result.Valid() && fresh(result.data)
      ensures result.Value() == S.Map(Value(), fn)
    {
      result := new Matrix(rows, cols);
      for i := 0 to rows * cols
        invariant forall j :: 0 <= j < i ==> result.data[j] == fn(data[j])
      {
        result.data[i] := fn(data[i]);
      }
      assert result.data[..] == S.Map(Value(), fn).cells;
    }

    /** `*this = source`: the copy assignment of the whole buffer. */
    method CopyFrom(source: Matrix)
      requires Valid() && source.Valid() && source.rows == rows && source.cols == cols
      requires source.data != data
      modifies data
      ensures Value() == source.Value()
    {
      for i := 0 to rows * cols
        invariant forall j :: 0 <= j < i ==> data[j] == source.data[j]
      {
        data[i] := source.data[i];
      }
      assert data[..] == source.data[..];
    }

    /** operator+=: `*this = *this + right`. */
    method AddAssign(right: Matrix)
      requires Valid() && right.Valid() && right.rows == rows && right.cols == cols
      modifies data
      ensures Value() == S.Add(old(Value()), old(right.Value()))
    {
      var sum := Add(this, right);
      CopyFrom(sum);
    }

    /** operator-=: `*this = *this - right`. */
    method SubAssign(right: Matrix)
      requires Valid() && right.Valid() && right.rows == rows && right.cols == cols
      modifies data
      ensures Value() == S.Sub(old(Value()), old(right.Value()))
    {
      var difference := Sub(this, right);
      CopyFrom(difference);
    }
  }

  /** dot: only for NC1 == NR2; a fresh NR1 x NC2 matrix whose cell (r, c)
      is accumulated over i in increasing order from 0. */
  method Dot(left: Matrix, right: Matrix) returns (result: Matrix)
    requires left.Valid() && right.Valid() && left.cols == right.rows
    ensures result.Valid() && fresh(result.data)
    ensures result.Value() == S.Dot(left.Value(), right.Value())
  {
    ghost var lv, rv := left.Value(), right.Value();
    result := new Matrix(left.rows, right.cols);
    for r := 0 to left.rows
      invariant forall r': nat, c': nat :: r' < r && c' < right.cols ==>
                  S.Get(result.Value(), r', c') == S.DotCell(lv, rv, r', c', left.cols)
    {
      for c := 0 to right.cols
        invariant forall r': nat, c': nat :: ((r' < r && c' < right.cols) || (r' == r && c' < c)) ==>
                    S.Get(result.Value(), r', c') == S.DotCell(lv, rv, r', c', left.cols)
      {
        var dotProduct := 0.0;
        for i := 0 to left.cols
          invariant dotProduct == S.DotCell(lv, rv, r, c, i)
        {
          dotProduct := dotProduct + left.At(r, i) * right.At(i, c);
        }
        result.SetAt(r, c, dotProduct);
      }
    }
    forall r': nat, c': nat | r' < left.rows && c' < right.cols
      ensures S.Get(result.Value(), r', c') == S.Get(S.Dot(lv, rv), r', c')
    {
      S.DotGet(lv, rv, r', c');
    }
    S.EqualByCells(result.Value(), S.Dot(lv, rv));
  }

  /** operator+ on two matrices of one shape. */
  method Add(left: Matrix, right: Matrix) returns (result: Matrix)
    requires left.Valid() && right.Valid() && left.rows == right.rows && left.cols == right.cols
    ensures result.Valid() && fresh(result.data)
    ensures result.Value() == S.Add(left.Value(), right.Value())
  {
    result := new Matrix(left.rows, left.cols);
    for i := 0 to left.rows * left.cols
      invariant forall j :: 0 <= j < i ==> result.data[j] == left.data[j] + right.data[j]
    {
      result.data[i] := left.data[i] + right.data[i];
    }
    assert result.data[..] == S.Add(left.Value(), right.Value()).cells;
  }

  /** operator- on two matrices of one shape. */
  method Sub(left: Matrix, right: Matrix) returns (result: Matrix)
    requires left.Valid() && right.Valid() && left.rows == right.rows && left.cols == right.cols
    ensures result.Valid() && fresh(result.data)
    ensures result.Value() == S.Sub(left.Value(), right.Value())
  {
    result := new Matrix(left.rows, left.cols);
    for i := 0 to left.rows * left.cols
      invariant forall j :: 0 <= j < i ==> result.data[j] == left.data[j] - right.data[j]
    {
      result.data[i] := left.data[i] - right.data[i];
    }
    assert result.data[..] == S.Sub(left.Value(), right.Value()).cells;
  }

  /** Elementwise operator* on two matrices of one shape. */
  method Mul(left: Matrix, right: Matrix) returns (result: Matrix)
    requires left.Valid() && right.Valid() && left.rows == right.rows && left.cols == right.cols
    ensures result.Valid() && fresh(result.data)
    ensures result.Value() == S.Mul(left.Value(), right.Value())
  {
    result := new Matrix(left.rows, left.cols);
    for i := 0 to left.rows * left.cols
      invariant forall j :: 0 <= j < i ==> result.data[j] == left.data[j] * right.data[j]
    {
      result.data[i] := left.data[i] * right.data[i];
    }
    ghost var product := S.Mul(left.Value(), right.Value());
    forall j | 0 <= j < result.data.Length
      ensures result.data[j] == product.cells[j]
    {
      assert product.cells[j] == left.data[j] * right.data[j];
    }
    assert result.data[..] == product.cells;
  }

  /** Scalar operator*: right.apply(x -> left * x). */
  method Scale(left: real, right: Matrix) returns (result: Matrix)
    requires right.Valid()
    ensures result.Valid() && fresh(result.data)
    ensures result.Value() == S.Scale(left, right.Value())
  {
    result := right.Apply(S.Times(left));
  }

  /** sum: accumulate every cell in index order, starting from 0. */
  method Sum(input: Matrix) returns (result: real)
    requires input.Valid()
    ensures result == S.Sum(input.Value())
  {
    result := 0.0;
    for i := 0 to input.rows * input.cols
      invariant result == S.SumOf(input.data[..i])
    {
      assert input.data[..i + 1][..i] == input.data[..i];
      result := result + input.data[i];
    }
    assert input.data[..input.rows * input.cols] == input.data[..];
  }

  method Relu(input: Matrix) returns (result: Matrix)
    requires input.Valid()
    ensures result.Valid() && fresh(result.data)
    ensures result.Value() == S.Relu(input.Value())
  {
    result := input.Apply(S.ReluOf);
  }

  method DRelu(input: Matrix) returns (result: Matrix)
    requires input.Valid()
    ensures result.Valid() && fresh(result.data)
    ensures result.Value() == S.DRelu(input.Value())
  {
    result := input.Apply(S.DReluOf);
  }

  /** exp: apply expf to every cell. */
  method Exp(input: Matrix, expf: S.ExpFn) returns (result: Matrix)
    requires input.Valid()
    ensures result.Valid() && fresh(result.data)
    ensures result.Value() == S.Map(input.Value(), expf)
  {
    result := input.Apply(expf);
  }

  method Sigmoid(input: Matrix, expf: S.ExpFn) returns (result: Matrix)
    requires input.Valid()
    ensures result.Valid() && fresh(result.data)
    ensures result.Value() == S.Sigmoid(input.Value(), expf)
  {
    result := input.Apply(S.SigmoidFn(expf));
  }

  method DSigmoid(input: Matrix, expf: S.ExpFn) returns (result: Matrix)
    requires input.Valid()
    ensures result.Valid() && fresh(result.data)
    ensures result.Value() == S.DSigmoid(input.Value(), expf)
  {
    result := input.Apply(S.DSigmoidFn(expf));
  }

  /** softmax: exp, then its sum as denominator, then expf(x) / denom on every cell.
      A matrix always has at least one cell (a zero-length array member is not C++). */
  method Softmax(input: Matrix, expf: S.ExpFn) returns (result: Matrix)
    requires input.Valid() && input.rows * input.cols > 0
    ensures result.Valid() && fresh(result.data)
    ensures result.Value() == S.Softmax(input.Value(), expf)
  {
    var expon := Exp(input, expf);
    var denom := Sum(expon);
    S.ExpSumPositive(input.Value(), expf);
    result := input.Apply(S.SoftmaxFn(expf, denom));
  }
}
