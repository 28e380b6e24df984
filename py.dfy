/** Python-level outcomes shared by every module of the model: the exceptions
    the modelled code can raise, optional values, and the int() of a float. */
module Py {

  /** The exceptions the modelled code raises (or lets escape from its collaborators). */
  datatype Exc =
    | IOError            // OSError family: a file that cannot be opened
    | KeyError           // a missing dict or archive key
    | TypeError          // wrong operand types, unexpected None
    | ValueError         // bad reshape, bad literal, bad unpacking, hstack of unequal heights
    | IndexError         // indexing past the end of a sequence
    | AssertionError     // a failed `assert`
    | SystemExit         // `sys.exit()`
    | ZeroDivisionError  // division by zero
    | AttributeError     // an attribute that was never assigned
    | NameError          // a local variable read before assignment
    | CvError            // an error raised inside an OpenCV call

  datatype Option<+T> = None | Some(value: T) {
    function GetOr(default: T): T {
      match this
      case Some(v) => v
      case None => default
    }
  }

  /** Either a value, or the exception the Python code raises instead. */
  datatype Result<+T> = Ok(value: T) | Raise(exc: Exc) {
    predicate IsFailure() { Raise? }

    function PropagateFailure<U>(): Result<U>
      requires Raise?
    {
      Raise(exc)
    }

    function Extract(): T
      requires Ok?
    {
      value
    }
  }

  /** Python's `int(x)` for a float `x`: truncation toward zero. */
  function Trunc(x: real): (r: int)
    ensures x >= 0.0 ==> r as real <= x < r as real + 1.0
    ensures x < 0.0 ==> r as real - 1.0 < x <= r as real
  {
    if x >= 0.0 then x.Floor else -((-x).Floor)
  }

  /** The mean Python computes with `total / length`, failing on an empty set. */
  function Divide(total: real, length: int): (r: Result<real>)
    ensures length == 0 <==> r == Raise(ZeroDivisionError)
    ensures length != 0 ==> r.Ok? && r.value * length as real == total
  {
    if length == 0 then Raise(ZeroDivisionError) else Ok(total / length as real)
  }

  /** `s[:k]`: a negative `k` counts from the end; bounds are clamped. */
  function Head<T>(s: seq<T>, k: int): (r: seq<T>)
    ensures k >= 0 ==> |r| == (if k < |s| then k else |s|)
    ensures k < 0 ==> |r| == (if |s| + k > 0 then |s| + k else 0)
    ensures r == s[..|r|]
  {
    if k >= 0 then (if k < |s| then s[..k] else s)
    else if |s| + k > 0 then s[..|s| + k] else []
  }

  /** The pseudo-random stream: draw `j` of `random.random()` after `random.seed(seed)`. */
  type Rng = (int, nat) -> real

  /** Every draw lies in [0, 1). */
  ghost predicate UnitInterval(rng: Rng) {
    forall seed, j :: 0.0 <= rng(seed, j) < 1.0
  }

  /** The index `floor(random() * n)` that `random.choices` picks with draw `j`. */
  function Pick(rng: Rng, seed: int, n: nat, j: nat): (i: nat)
    requires UnitInterval(rng) && n > 0
    ensures i < n
  {
    var u := rng(seed, j);
    var x := u * n as real;
    assert 0.0 <= x < n as real by {
      assert (1.0 - u) * n as real > 0.0;
    }
    x.Floor
  }

  /** `random.seed(seed); random.choices(population, k=k)`: `k` draws with
      replacement; none for `k <= 0`; an `IndexError` from an empty
      population when a draw is needed. */
  function Choices<T>(rng: Rng, seed: int, population: seq<T>, k: int): (r: Result<seq<T>>)
    requires UnitInterval(rng)
    ensures k <= 0 ==> r == Ok([])
    ensures k > 0 && |population| == 0 ==> r == Raise(IndexError)
    ensures r.Ok? <==> k <= 0 || |population| > 0
    ensures r.Ok? ==> |r.value| == (if k > 0 then k else 0)
    ensures r.Ok? ==> forall j :: 0 <= j < |r.value| ==> r.value[j] == population[Pick(rng, seed, |population|, j)]
  {
    if k <= 0 then Ok([])
    else if |population| == 0 then Raise(IndexError)
    else Ok(seq(k, j requires 0 <= j < k => population[Pick(rng, seed, |population|, j)]))
  }

  /** Every choice is an element of the population. */
  lemma ChoicesFromPopulation<T>(rng: Rng, seed: int, population: seq<T>, k: int)
    requires UnitInterval(rng)
    ensures var r := Choices(rng, seed, population, k);
            r.Ok? ==> forall j :: 0 <= j < |r.value| ==> r.value[j] in population
  {
    var r := Choices(rng, seed, population, k);
    if r.Ok? {
      forall j | 0 <= j < |r.value| ensures r.value[j] in population {
        assert r.value[j] == population[Pick(rng, seed, |population|, j)];
      }
    }
  }

  /** A set of indices that gains at most the one fresh index `n` over `t`
      grows by one exactly when it gains it. */
  lemma CountOneMore(s: set<int>, t: set<int>, n: int, hit: bool)
    requires n !in t
    requires forall i :: i in s <==> i in t || (hit && i == n)
    ensures |s| == |t| + (if hit then 1 else 0)
  {
    if hit {
      assert s == t + {n} by {
        forall i ensures i in s <==> i in t + {n} { }
      }
    } else {
      assert s == t by {
        forall i ensures i in s <==> i in t { }
      }
    }
  }
}
