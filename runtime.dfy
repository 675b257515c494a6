/** The parts of the Python runtime the modelled code leans on: the exceptions it
    can raise, `int()` truncation, two-argument `min`/`max`, and the
    transcendental functions of `math`, which stay uninterpreted. */
module Runtime {

  datatype Option<+T> = None | Some(value: T)

  /** The exceptions the modelled code can raise or re-raise. */
  datatype Failure =
    | ZeroDivision                     // ZeroDivisionError: float division by zero
    | MathDomain                       // ValueError: math domain error (math.sqrt of a negative number)
    | NotReal                          // TypeError: a complex number reached a comparison, min() or int()
    | NotNumber                        // TypeError: None used in arithmetic
    | MissingArguments(names: seq<string>)  // TypeError: a call left required positional parameters unfilled
    | TooManyArguments                 // TypeError: a call passed more positional arguments than declared
    | RequestFailed                    // requests.RequestException: the upstream service could not be reached
    | Http(status: int, detail: Detail)     // fastapi.HTTPException

  /** The detail of an HTTPException: a fixed text, or a fixed prefix followed by
      `str()` of the exception that was caught. */
  datatype Detail = Text(text: string) | Caused(prefix: string, cause: Failure)

  /** A value, or the exception raised while computing it. */
  datatype Result<+T> = Ok(value: T) | Err(error: Failure) {
    predicate IsFailure() { Err? }

    function PropagateFailure<U>(): Result<U>
      requires Err?
    {
      Err(error)
    }

    function Extract(): T
      requires Ok?
    {
      value
    }
  }

  /** `try: ... except Exception as e: raise HTTPException(status_code=500, detail=f"{prefix}{str(e)}")`. */
  function ServerError<T>(prefix: string, r: Result<T>): (w: Result<T>)
    ensures r.Ok? ==> w == r
    ensures r.Err? ==> w == Err(Http(500, Caused(prefix, r.error)))
  {
    match r
    case Ok(_) => r
    case Err(e) => Err(Http(500, Caused(prefix, e)))
  }

  /** Python's `int(x)` on a float: truncation toward zero. */
  function Trunc(x: real): (n: int)
    ensures 0.0 <= x ==> 0 <= n && n as real <= x < n as real + 1.0
    ensures x < 0.0 ==> n <= 0 && x <= n as real < x + 1.0
  {
    if 0.0 <= x then x.Floor else -((-x).Floor)
  }

  /** Python's `min(a, b)`: the first argument unless the second is smaller. */
  function Min(a: real, b: real): (r: real)
    ensures r <= a && r <= b
    ensures r == a || r == b
  {
    if b < a then b else a
  }

  /** Python's `max(a, b)`: the first argument unless the second is larger. */
  function Max(a: real, b: real): (r: real)
    ensures a <= r && b <= r
    ensures r == a || r == b
  {
    if b > a then b else a
  }

  /** Python's `max(a, b)` on integers. */
  function MaxInt(a: int, b: int): (r: int)
    ensures a <= r && b <= r
    ensures r == a || r == b
  {
    if b > a then b else a
  }

  /** `x ** 2` on floats. */
  function Square(x: real): real
  {
    x * x
  }

  /** `x ** 3` on floats. */
  function Cube(x: real): real
  {
    x * x * x
  }

  /** `a * b`, for stating the sign rules of products once. */
  function Mul(a: real, b: real): real
  {
    a * b
  }

  lemma ProductSign(a: real, b: real)
    ensures 0.0 < a && 0.0 < b ==> 0.0 < Mul(a, b)
    ensures a < 0.0 && b < 0.0 ==> 0.0 < Mul(a, b)
    ensures 0.0 <= a && 0.0 <= b ==> 0.0 <= Mul(a, b)
    ensures 0.0 <= a && b <= 0.0 ==> Mul(a, b) <= 0.0
  {
  }

  /** Multiplying by a non-negative factor keeps the order, on either side. */
  lemma MulMonotone(a: real, b: real, c: real)
    requires 0.0 <= a && b <= c
    ensures Mul(a, b) <= Mul(a, c) && Mul(b, a) <= Mul(c, a)
  {
    ProductSign(a, c - b);
    assert Mul(a, c - b) == Mul(a, c) - Mul(a, b);
  }

  /** A product of non-negative factors grows when two of them grow. */
  lemma ProductMonotone(k: real, a1: real, a2: real, b1: real, b2: real, c: real)
    requires 0.0 <= k && 0.0 <= a1 <= a2 && 0.0 <= b1 <= b2 && 0.0 <= c
    ensures 0.0 <= Mul(Mul(Mul(k, a1), b1), c) <= Mul(Mul(Mul(k, a2), b2), c)
  {
    MulMonotone(k, a1, a2);
    ProductSign(k, a1);
    ProductSign(k, a2);
    MulMonotone(b1, Mul(k, a1), Mul(k, a2));
    MulMonotone(Mul(k, a2), b1, b2);
    ProductSign(Mul(k, a1), b1);
    ProductSign(Mul(k, a2), b2);
    MulMonotone(c, Mul(Mul(k, a1), b1), Mul(Mul(k, a2), b2));
    ProductSign(Mul(Mul(k, a1), b1), c);
  }

  /** Dividing by a positive number keeps the order. */
  lemma QuotientMonotone(a: real, b: real, c: real)
    requires a <= b && 0.0 < c
    ensures a / c <= b / c
  {
    QuotientSign(b - a, c);
    assert (b - a) / c == b / c - a / c;
  }

  lemma SquareSign(x: real)
    ensures 0.0 <= Square(x)
    ensures x != 0.0 ==> 0.0 < Square(x)
  {
    ProductSign(x, x);
  }

  lemma CubeSign(x: real)
    ensures 0.0 <= x ==> 0.0 <= Cube(x)
    ensures x < 0.0 ==> Cube(x) < 0.0
  {
    ProductSign(x, x);
    ProductSign(Mul(x, x), x);
    if x < 0.0 {
      ProductSign(x * x, -x);
      assert Mul(x * x, -x) == -Cube(x);
    }
  }

  lemma QuotientSign(a: real, b: real)
    requires b != 0.0
    ensures 0.0 < a && 0.0 < b ==> 0.0 < a / b
    ensures 0.0 < a && b < 0.0 ==> a / b < 0.0
    ensures a < 0.0 && 0.0 < b ==> a / b < 0.0
    ensures 0.0 <= a && 0.0 < b ==> 0.0 <= a / b
    ensures a == 0.0 ==> a / b == 0.0
  {
  }

  /** The transcendental part of `math` and of `**`, left uninterpreted:
      `pi` is `math.pi`, `pow(x, e)` is `x ** e` for a non-integer exponent
      and a base where Python gives a float, `log10`, `sin` and `sqrt` are the
      `math` functions on their domains. */
  datatype Maths = Maths(
    pi: real,
    pow: (real, real) -> real,
    log10: real -> real,
    sin: real -> real,
    sqrt: real -> real)

  /** `math.radians(degrees)`: 0° is 0, 180° is π, and a non-negative angle
      stays non-negative. */
  function Radians(m: Maths, degrees: real): (r: real)
    ensures degrees == 0.0 ==> r == 0.0
    ensures degrees == 180.0 ==> r == m.pi
    ensures 0.0 <= m.pi && 0.0 <= degrees ==> 0.0 <= r
  {
    ProductSign(degrees, m.pi);
    degrees * m.pi / 180.0
  }

  /** `x ** e` on floats with a non-integer exponent: a negative base yields a
      complex number, which every modelled caller then feeds to a comparison,
      `min()` or `int()` that raises TypeError; a zero base with a negative
      exponent raises ZeroDivisionError. */
  function Pow(m: Maths, x: real, e: real): (r: Result<real>)
    ensures r.Err? <==> x < 0.0 || (x == 0.0 && e < 0.0)
    ensures x < 0.0 ==> r == Err(NotReal)
    ensures 0.0 <= x && r.Err? ==> r == Err(ZeroDivision)
    ensures r.Ok? && PowNonNegative(m) ==> 0.0 <= r.value
  {
    if x < 0.0 then Err(NotReal)
    else if x == 0.0 && e < 0.0 then Err(ZeroDivision)
    else Ok(m.pow(x, e))
  }

  /** `math.sqrt(x)`: ValueError for a negative argument. */
  function Sqrt(m: Maths, x: real): (r: Result<real>)
    ensures r.Err? <==> x < 0.0
    ensures r.Err? ==> r.error == MathDomain
    ensures r.Ok? && SqrtNonNegative(m) ==> 0.0 <= r.value
  {
    if x < 0.0 then Err(MathDomain) else Ok(m.sqrt(x))
  }

  /** The only facts about the uninterpreted functions that proofs use. */
  ghost predicate PowNonNegative(m: Maths)
  {
    forall x, e :: 0.0 <= x ==> 0.0 <= m.pow(x, e)
  }

  /** A larger non-negative base raised to a positive power gives a result
      at least as large. */
  ghost predicate PowMonotone(m: Maths)
  {
    forall x, y, e :: 0.0 <= x <= y && 0.0 < e ==> m.pow(x, e) <= m.pow(y, e)
  }

  ghost predicate SqrtNonNegative(m: Maths)
  {
    forall x :: 0.0 <= x ==> 0.0 <= m.sqrt(x)
  }

  /** The sine of an angle between 0 and 90 degrees lies in [0, 1]. */
  ghost predicate SineOfAcuteAngle(m: Maths)
  {
    forall d :: 0.0 <= d <= 90.0 ==> 0.0 <= m.sin(Radians(m, d)) <= 1.0
  }

  predicate PiBetween(m: Maths)
  {
    3.14 < m.pi < 3.15
  }

  ghost predicate Sound(m: Maths)
  {
    PiBetween(m) && PowNonNegative(m) && SqrtNonNegative(m) && SineOfAcuteAngle(m)
  }
}
