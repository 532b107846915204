/**
 * `ImageClassifierHelperKotlin`: the classifier's settings, the names of its model
 * and delegate, and the counters from which the throughput is computed.
 */
module Classifier {
  import opened Wrappers
  import opened Text

  // ---------------------------------------------------------------------------
  // Kotlin integer arithmetic

  /** A Kotlin `Int` result: the exact value wrapped into 32 bits. */
  function Wrap32(x: int): (r: int)
    ensures IntMin <= r <= IntMax
    ensures IntMin <= x <= IntMax ==> r == x
  {
    (x - IntMin) % 0x1_0000_0000 + IntMin
  }

  /** Wrapping moves a value by a whole number of 2^32 steps. */
  lemma Wrap32Congruent(x: int)
    ensures (Wrap32(x) - x) % 0x1_0000_0000 == 0
  {
    var m := 0x1_0000_0000;
    var q := (x - IntMin) / m;
    assert x - IntMin == q * m + (x - IntMin) % m;
    assert Wrap32(x) - x == -q * m;
  }

  /** Kotlin's `/` on `Long`: the quotient rounded toward zero. */
  function TruncDiv(a: int, b: int): (q: int)
    requires b > 0
  {
    if a >= 0 then a / b else -((-a) / b)
  }

  /** The quotient rounded toward zero: no larger in size than the exact one, and within one of it. */
  lemma TruncDivBounds(a: int, b: int)
    requires b > 0
    ensures TruncDiv(a, b) == -TruncDiv(-a, b)
    ensures a >= 0 ==> TruncDiv(a, b) * b <= a < (TruncDiv(a, b) + 1) * b
    ensures a < 0 ==> (TruncDiv(a, b) - 1) * b < a <= TruncDiv(a, b) * b
  {
    if a > 0 {
      assert -a < 0;
    }
  }

  // ---------------------------------------------------------------------------
  // Throughput

  /** `max(1L, totalExecutionTime / 1000000)`. */
  function Divisor(totalExecutionTime: int): (d: int)
    ensures d >= 1
  {
    var millis := TruncDiv(totalExecutionTime, 1000000);
    if millis > 1 then millis else 1
  }

  /**
   * `calculateThroughput`: `executionCount * 1000` in `Int`, over the divisor in
   * `Long`. The result always fits in an `Int`, is 0 with no executions, and while
   * the product does not wrap it lies between 0 and the product.
   */
  function Throughput(executionCount: int, totalExecutionTime: int): (r: int)
    ensures IntMin <= r <= IntMax
    ensures executionCount == 0 ==> r == 0
    ensures 0 <= executionCount <= IntMax / 1000 ==> 0 <= r <= executionCount * 1000
  {
    var product := Wrap32(executionCount * 1000);
    var d := Divisor(totalExecutionTime);
    QuotientAtMost(if product >= 0 then product else -product, d);
    TruncDiv(product, d)
  }

  /**
   * The divisor is never zero: it is 1 below two million and otherwise the total
   * in whole millions.
   */
  lemma DivisorCases(totalExecutionTime: int)
    ensures Divisor(totalExecutionTime) >= 1
    ensures totalExecutionTime < 2000000 ==> Divisor(totalExecutionTime) == 1
    ensures totalExecutionTime >= 2000000 ==> Divisor(totalExecutionTime) == totalExecutionTime / 1000000
  {
  }

  /** A non-negative quotient by at least one is no larger than the dividend. */
  lemma QuotientAtMost(n: int, d: int)
    requires n >= 0 && d >= 1
    ensures 0 <= n / d <= n
  {
    var q := n / d;
    var r := n % d;
    assert n == q * d + r && 0 <= r < d;
    assert q * d - q == q * (d - 1) >= 0;
  }

  /**
   * While `executionCount * 1000` fits in an `Int`, the throughput is that product
   * over the divisor, rounded down; with a total below two million it is the product.
   */
  lemma ThroughputExact(executionCount: int, totalExecutionTime: int)
    requires 0 <= executionCount <= IntMax / 1000
    ensures Throughput(executionCount, totalExecutionTime)
      == executionCount * 1000 / Divisor(totalExecutionTime)
    ensures totalExecutionTime < 2000000 ==> Throughput(executionCount, totalExecutionTime) == executionCount * 1000
    ensures 0 <= Throughput(executionCount, totalExecutionTime) <= executionCount * 1000
  {
    DivisorCases(totalExecutionTime);
    var n := executionCount * 1000;
    assert 0 <= n <= IntMax;
    assert Wrap32(n) == n;
    QuotientAtMost(n, Divisor(totalExecutionTime));
  }

  /** Past 2147483 executions the product wraps and the throughput turns negative. */
  lemma ThroughputWraps()
    ensures Throughput(2147484, 0) < 0
  {
    assert Wrap32(2147484 * 1000) == 2147484000 - 0x1_0000_0000;
  }

  // ---------------------------------------------------------------------------
  // Names

  /**
   * `modelName`: the model file for an index; anything unknown falls back to
   * MobileNet V1. The four known indices name distinct files.
   */
  function ModelName(currentModel: int): (r: Cell)
    ensures ModelIndex(r) == Some(if 0 <= currentModel <= 3 then currentModel else 0)
  {
    match currentModel
    case 1 => "efficientnet-lite0.tflite"
    case 2 => "efficientnet-lite1.tflite"
    case 3 => "efficientnet-lite2.tflite"
    case _ => "mobilenetv1.tflite"
  }

  /** The index a model file stands for. */
  function ModelIndex(name: string): Option<int> {
    if name == "mobilenetv1.tflite" then Some(0)
    else if name == "efficientnet-lite0.tflite" then Some(1)
    else if name == "efficientnet-lite1.tflite" then Some(2)
    else if name == "efficientnet-lite2.tflite" then Some(3)
    else None
  }

  /**
   * `delegateName`: CPU, GPU or NPU (for NNAPI), and "unknown" for anything else.
   * Each known delegate has its own name, which leads back to it.
   */
  function DelegateName(currentDelegate: int): (r: Cell)
    ensures 0 <= currentDelegate <= 2 ==> DelegateIndex(r) == Some(currentDelegate)
    ensures !(0 <= currentDelegate <= 2) <==> r == "unknown"
    ensures DelegateIndex(r).None? <==> !(0 <= currentDelegate <= 2)
  {
    match currentDelegate
    case 0 => "CPU"
    case 1 => "GPU"
    case 2 => "NPU"
    case _ => "unknown"
  }

  function DelegateIndex(name: string): Option<int> {
    if name == "CPU" then Some(0)
    else if name == "GPU" then Some(1)
    else if name == "NPU" then Some(2)
    else None
  }

  // ---------------------------------------------------------------------------
  // Counters

  /** The run flag and the three counters behind the throughput. */
  datatype Counters = Counters(run: bool, inferenceTime: int, executionCount: int, totalExecutionTime: int)

  /** The user-set knobs. `threshold` is a `Float` the model does not step. */
  datatype Settings = Settings(numThreads: int, maxResults: int, currentDelegate: int, currentModel: int,
                               taskPeriod: int)

  /**
   * `resetRtData`: zero the total and the count, and remember the clock. Whatever
   * the counters held, the throughput right after is 0; the run flag stays.
   */
  function Reset(c: Counters, now: int): (r: Counters)
    ensures Throughput(r.executionCount, r.totalExecutionTime) == 0
    ensures r.run == c.run && r.inferenceTime == now
  {
    c.(totalExecutionTime := 0, executionCount := 0, inferenceTime := now)
  }

  /**
   * The counter updates of one `classify` call, with the clock read as `start`
   * before inference and `finish` after. The new `inferenceTime` is `finish` less
   * the previous `inferenceTime`, as the code computes it.
   */
  function ClassifyStep(c: Counters, start: int, finish: int): (r: Counters)
    ensures r.run == c.run
    ensures r.inferenceTime == finish - c.inferenceTime
    ensures IntMin <= c.executionCount < IntMax ==> r.executionCount == c.executionCount + 1
    ensures c.inferenceTime <= start <= finish ==> r.totalExecutionTime >= c.totalExecutionTime
    ensures c.inferenceTime != 0 ==>
      (r.totalExecutionTime - c.totalExecutionTime == (start - c.inferenceTime) + r.inferenceTime)
    ensures c.inferenceTime == 0 ==> r.totalExecutionTime - c.totalExecutionTime == r.inferenceTime
  {
    var gap := if c.inferenceTime != 0 then start - c.inferenceTime else 0;
    var inference := finish - c.inferenceTime;
    c.(inferenceTime := inference,
       totalExecutionTime := c.totalExecutionTime + gap + inference,
       executionCount := Wrap32(c.executionCount + 1))
  }

  /** How long `classify` delays: what is left of the period, if anything. */
  function Sleep(taskPeriod: int, inferenceTime: int): (d: int)
    ensures d >= 0
    ensures d > 0 <==> taskPeriod - inferenceTime > 0
    ensures d > 0 ==> inferenceTime + d == taskPeriod
  {
    if taskPeriod - inferenceTime > 0 then taskPeriod - inferenceTime else 0
  }

  /** The counters after a sequence of `classify` calls, one (start, finish) pair each. */
  function Run(c: Counters, calls: seq<(int, int)>): Counters {
    if |calls| == 0 then c else ClassifyStep(Run(c, calls[..|calls| - 1]), calls[|calls| - 1].0, calls[|calls| - 1].1)
  }

  /** Each call counts exactly once: after a reset, `n` calls (that fit in an `Int`) count `n`. */
  lemma {:induction false} RunCounts(c: Counters, now: int, calls: seq<(int, int)>)
    requires |calls| <= IntMax
    ensures Run(Reset(c, now), calls).executionCount == |calls|
    ensures Run(Reset(c, now), calls).run == c.run
  {
    if |calls| > 0 {
      RunCounts(c, now, calls[..|calls| - 1]);
    }
  }

  /**
   * Right after a reset at `t0`, the first call records `finish - t0` as its
   * inference time: the time since the reset, not since `start`.
   */
  lemma InferenceTimeSinceReset(c: Counters, t0: int, start: int, finish: int)
    ensures ClassifyStep(Reset(c, t0), start, finish).inferenceTime == finish - t0
    ensures t0 != 0 ==> ClassifyStep(Reset(c, t0), start, finish).totalExecutionTime == (start - t0) + (finish - t0)
  {
  }

  class ImageClassifierHelper {
    var numThreads: int
    var maxResults: int
    var currentDelegate: int
    var currentModel: int
    var taskPeriod: int
    var run: bool
    var inferenceTime: int
    var executionCount: int
    var totalExecutionTime: int
    const index: int

    function CurrentSettings(): Settings
      reads this
    {
      Settings(numThreads, maxResults, currentDelegate, currentModel, taskPeriod)
    }

    function CurrentCounters(): Counters
      reads this
    {
      Counters(run, inferenceTime, executionCount, totalExecutionTime)
    }

    /** The property initialisers. */
    constructor (index: int)
      ensures CurrentSettings() == Settings(2, 3, 0, 0, 500)
      ensures CurrentCounters() == Counters(false, 0, 0, 1)
      ensures this.index == index
    {
      numThreads := 2;
      maxResults := 3;
      currentDelegate := 0;
      currentModel := 0;
      taskPeriod := 500;
      run := false;
      inferenceTime := 0;
      executionCount := 0;
      totalExecutionTime := 1;
      this.index := index;
    }

    method SetMaxResults(v: int)
      modifies this
      ensures CurrentSettings() == old(CurrentSettings()).(maxResults := v) && CurrentCounters() == old(CurrentCounters())
    {
      maxResults := v;
    }

    method SetNumThreads(v: int)
      modifies this
      ensures CurrentSettings() == old(CurrentSettings()).(numThreads := v) && CurrentCounters() == old(CurrentCounters())
    {
      numThreads := v;
    }

    method SetTaskPeriod(v: int)
      modifies this
      ensures CurrentSettings() == old(CurrentSettings()).(taskPeriod := v) && CurrentCounters() == old(CurrentCounters())
    {
      taskPeriod := v;
    }

    method SetCurrentDelegate(v: int)
      modifies this
      ensures CurrentSettings() == old(CurrentSettings()).(currentDelegate := v) && CurrentCounters() == old(CurrentCounters())
    {
      currentDelegate := v;
    }

    method SetCurrentModel(v: int)
      modifies this
      ensures CurrentSettings() == old(CurrentSettings()).(currentModel := v) && CurrentCounters() == old(CurrentCounters())
    {
      currentModel := v;
    }

    /** `calculateThroughput`: an `Int`, 0 before the first execution is counted. */
    function CalculateThroughput(): (r: int)
      reads this
      ensures IntMin <= r <= IntMax
      ensures executionCount == 0 ==> r == 0
      ensures 0 <= executionCount <= IntMax / 1000 ==> 0 <= r
    {
      Throughput(executionCount, totalExecutionTime)
    }

    /** `startCollect`: set the run flag, then reset the counters at the clock reading `now`. */
    method StartCollect(now: int)
      modifies this
      ensures CurrentCounters() == Reset(old(CurrentCounters()), now).(run := true)
      ensures CurrentSettings() == old(CurrentSettings())
    {
      run := true;
      totalExecutionTime := 0;
      executionCount := 0;
      inferenceTime := now;
    }

    /** `pauseCollect`: clear the run flag; the counters stay. */
    method PauseCollect()
      modifies this
      ensures CurrentCounters() == old(CurrentCounters()).(run := false)
      ensures CurrentSettings() == old(CurrentSettings())
    {
      run := false;
    }

    /** `classify`'s bookkeeping, with the clock read as `start` and `finish`; returns the delay. */
    method Classify(start: int, finish: int) returns (delay: int)
      modifies this
      ensures CurrentCounters() == ClassifyStep(old(CurrentCounters()), start, finish)
      ensures CurrentSettings() == old(CurrentSettings())
      ensures delay == Sleep(taskPeriod, inferenceTime)
    {
      if inferenceTime != 0 {
        totalExecutionTime := totalExecutionTime + (start - inferenceTime);
      }
      inferenceTime := finish - inferenceTime;
      var timeLeftInPeriod := taskPeriod - inferenceTime;
      delay := 0;
      if timeLeftInPeriod > 0 {
        delay := timeLeftInPeriod;
      }
      totalExecutionTime := totalExecutionTime + inferenceTime;
      executionCount := Wrap32(executionCount + 1);
    }
  }
}
