/** The LSTM forecasting service (ml/forecast_api.py): the sliding-window
    training set and the rolling prediction loop. The trained network is
    the parameter `predict`, a function from an input window to the next
    value; building and fitting it are not part of this model. */
module ForecastApi {
  import opened Wrappers

  /** The window size the service uses. */
  const Window: nat := 3

  /** The training inputs `X` and targets `y`. */
  datatype Dataset = Dataset(X: seq<seq<real>>, y: seq<real>)

  /** `prepare_dataset(series, window)`, ml/forecast_api.py lines 9-14: one
      pair per position `i` from 0 while `i + window < len(series)`. */
  function PrepareDataset(series: seq<real>, window: nat): (d: Dataset)
    ensures |d.X| == |d.y| == if |series| > window then |series| - window else 0
    ensures forall i :: 0 <= i < |d.X| ==> |d.X[i]| == window
  {
    var n := if |series| > window then |series| - window else 0;
    Dataset(
      seq(n, i requires 0 <= i < n => series[i..i + window]),
      seq(n, i requires 0 <= i < n => series[i + window]))
  }

  /** Each input window followed by its target is a run of `window + 1`
      consecutive values of the series. */
  lemma {:induction false} DatasetPairs(series: seq<real>, window: nat, i: int)
    requires 0 <= i < |PrepareDataset(series, window).X|
    ensures PrepareDataset(series, window).X[i] + [PrepareDataset(series, window).y[i]]
            == series[i..i + window + 1]
  {
    var d := PrepareDataset(series, window);
    assert d.X[i] == series[i..i + window];
    assert series[i..i + window + 1] == series[i..i + window] + [series[i + window]];
  }

  /** Consecutive windows overlap: the next window drops the first value
      and appends the previous target. */
  lemma {:induction false} DatasetOverlap(series: seq<real>, window: nat, i: int)
    requires window >= 1
    requires 0 <= i && i + 1 < |PrepareDataset(series, window).X|
    ensures var d := PrepareDataset(series, window);
            d.X[i + 1] == d.X[i][1..] + [d.y[i]]
  {
    var d := PrepareDataset(series, window);
    DatasetPairs(series, window, i);
    DatasetPairs(series, window, i + 1);
    assert d.X[i + 1] == series[i + 1..i + 1 + window];
    assert series[i..i + window + 1][1..] == series[i + 1..i + 1 + window] + [];
    assert (d.X[i] + [d.y[i]])[1..] == d.X[i][1..] + [d.y[i]];
  }

  /** Nothing of the series is lost: the first window followed by all the
      targets is the series itself. */
  lemma {:induction false} DatasetRebuildsSeries(series: seq<real>, window: nat)
    requires |series| > window
    ensures var d := PrepareDataset(series, window);
            d.X[0] + d.y == series
  {
    var d := PrepareDataset(series, window);
    forall k | 0 <= k < |series|
      ensures (d.X[0] + d.y)[k] == series[k]
    {
      if k >= window {
        assert d.y[k - window] == series[k];
      }
    }
  }

  /** The model's input after `k` predictions: the last `Window` values of
      the series with the first `k` predictions appended, of which the last
      `Window` values are kept. */
  function InputWindow(tail: seq<real>, preds: seq<real>, k: int): (w: seq<real>)
    requires |tail| == Window && 0 <= k <= |preds|
    ensures |w| == Window
  {
    (tail + preds[..k])[k..k + Window]
  }

  /** While `k` is at most the window size, the window still starts with
      series values: the last `Window - k` of them, then the `k`
      predictions so far. */
  lemma {:induction false} WindowAfterSteps(tail: seq<real>, preds: seq<real>, k: int)
    requires |tail| == Window && 0 <= k <= |preds| && k <= Window
    ensures InputWindow(tail, preds, k) == tail[k..] + preds[..k]
  {
  }

  /** From the window size on, the model only sees its own predictions. */
  lemma {:induction false} WindowOfPredictions(tail: seq<real>, preds: seq<real>, k: int)
    requires |tail| == Window && Window <= k <= |preds|
    ensures InputWindow(tail, preds, k) == preds[k - Window..k]
  {
    var w := InputWindow(tail, preds, k);
    forall j | 0 <= j < Window
      ensures w[j] == preds[k - Window + j]
    {
      assert w[j] == (tail + preds[..k])[k + j];
    }
  }

  /** The `/forecast` handler up to its reply, ml/forecast_api.py lines
      24-48, after the model is trained. `steps` is None when the request
      gives none. A series of at most `Window` values yields no training
      pairs, and the reshape of the empty `X` fails: that is the None
      result. */
  method Forecast(series: seq<real>, steps: Option<int>, predict: seq<real> -> real) returns (r: Option<seq<real>>)
    ensures r.None? <==> |series| <= Window
    ensures r.Some? ==> |r.value| == if steps.GetOr(3) > 0 then steps.GetOr(3) else 0
    ensures r.Some? ==> forall k :: 0 <= k < |r.value| ==>
              r.value[k] == predict(InputWindow(series[|series| - Window..], r.value, k))
  {
    var d := PrepareDataset(series, Window);
    if |d.X| == 0 {
      return None;
    }
    var n := steps.GetOr(3);
    var tail := series[|series| - Window..];
    var predictions: seq<real> := [];
    var lastInput := tail;
    var j := 0;
    while j < n
      invariant j == |predictions| && (n > 0 ==> j <= n) && (n <= 0 ==> j == 0)
      invariant lastInput == InputWindow(tail, predictions, j)
      invariant forall k :: 0 <= k < j ==> predictions[k] == predict(InputWindow(tail, predictions, k))
    {
      var pred := predict(lastInput);
      var before := predictions;
      predictions := predictions + [pred];
      assert predictions[..j] == before && predictions[..j + 1] == predictions;
      forall k | 0 <= k <= j
        ensures InputWindow(tail, predictions, k) == InputWindow(tail, before, k)
      {
        assert predictions[..k] == before[..k];
      }
      assert lastInput[1..] + [pred] == (tail + predictions)[j + 1..j + 1 + Window] by {
        var a, b := lastInput[1..] + [pred], (tail + predictions)[j + 1..j + 1 + Window];
        forall m | 0 <= m < Window
          ensures a[m] == b[m]
        {
          if m < Window - 1 {
            assert a[m] == lastInput[m + 1] == (tail + before)[j + m + 1];
          }
        }
      }
      lastInput := lastInput[1..] + [pred];
      j := j + 1;
    }
    r := Some(predictions);
  }

  /** The HTTP reply: a JSON body holding the forecast, or a server error. */
  datatype Reply = Json(forecast: seq<real>) | ServerError

  /** The reply as written, ml/forecast_api.py line 50. Each prediction is
      a numpy `float32` scalar; Flask's JSON encoder takes Python floats
      (and `float64`, a subclass of float) but rejects `float32`, so the
      reply fails as soon as the list holds one prediction. */
  method ForecastReplyAsWritten(series: seq<real>, steps: Option<int>, predict: seq<real> -> real) returns (reply: Reply)
    ensures reply.Json? <==> |series| > Window && steps.GetOr(3) <= 0
    ensures reply.Json? ==> reply.forecast == []
  {
    var r := Forecast(series, steps, predict);
    if r.None? || |r.value| > 0 {
      reply := ServerError;
    } else {
      reply := Json([]);
    }
  }

  /** The reply with the predictions converted to Python floats first:
      every series the model can be trained on gets its forecast. */
  method ForecastReply(series: seq<real>, steps: Option<int>, predict: seq<real> -> real) returns (reply: Reply)
    ensures reply.Json? <==> |series| > Window
    ensures reply.Json? ==> |reply.forecast| == if steps.GetOr(3) > 0 then steps.GetOr(3) else 0
    ensures reply.Json? ==> forall k :: 0 <= k < |reply.forecast| ==>
              reply.forecast[k] == predict(InputWindow(series[|series| - Window..], reply.forecast, k))
  {
    var r := Forecast(series, steps, predict);
    if r.Some? {
      reply := Json(r.value);
    } else {
      reply := ServerError;
    }
  }
}
