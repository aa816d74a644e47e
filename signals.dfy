/**
 * The acquired spectrum (`Signal`, app/core/signal.py): a two-dimensional
 * array of intensities, one row per sub-acquisition and one column per
 * channel, with the channel count, the channel indices and the intensities
 * of row 0 derived from it.
 */
module Signals {
  import opened Outcomes
  import opened NdArrays

  /** The message of the constructor's rank assertion, as the source spells it. */
  const RankMessage: string := "Two dimential data are supported only!"

  /**
   * A signal holds the array it was built from. It is a value: none of its
   * members changes the array.
   */
  datatype Signal = Signal(data: Array)
  {
    /** What the constructor's assertion establishes: the data has exactly two dimensions. */
    predicate Valid()
    {
      data.Valid() && data.Rank() == 2
    }

    /** `n_numbers`: the channel count, i.e. the number of columns. */
    function NNumbers(): (n: nat)
      requires Valid()
      ensures n == data.shape[1]
      ensures |data.items| == data.shape[0] * n
      ensures forall i | 0 <= i < data.shape[0] :: |data.Sub(i).items| == n
    {
      SizeOfMatrix(data.shape);
      data.shape[1]
    }

    /** `number`: the channel indices 0, 1, ..., n_numbers - 1. */
    function Number(): (r: seq<int>)
      requires Valid()
      ensures |r| == NNumbers()
      ensures forall j | 0 <= j < |r| :: r[j] == j
      ensures forall i, j | 0 <= i < j < |r| :: r[i] < r[j]
    {
      Arange(NNumbers())
    }

    /**
     * `value`: row 0 of the data, one intensity per channel. Indexing row 0
     * of an array without rows raises IndexError.
     */
    function Value(): (r: Result<seq<real>>)
      requires Valid()
      ensures r.Success? <==> data.shape[0] > 0
      ensures r.Failure? ==> r.error == IndexError
      ensures r.Success? ==> |r.value| == NNumbers()
      ensures r.Success? ==> forall j | 0 <= j < |r.value| :: r.value[j] == data.At(0, j)
    {
      if data.shape[0] == 0 then Failure(IndexError) else Success(data.Sub(0).items)
    }
  }

  /**
   * `Signal(data)`: succeeds exactly for two-dimensional data and then keeps
   * the data unchanged; any other rank fails the constructor's assertion.
   */
  function NewSignal(data: Array): (r: Result<Signal>)
    requires data.Valid()
    ensures r.Success? <==> data.Rank() == 2
    ensures r.Success? ==> r.value.Valid() && r.value.data == data
    ensures r.Failure? ==> r.error == AssertionError(RankMessage)
  {
    if data.Rank() == 2 then Success(Signal(data)) else Failure(AssertionError(RankMessage))
  }

  /**
   * `await_read_signal`: wraps the frame that the device's blocking read
   * returned. The driver call itself is not part of this model; its result
   * is the parameter `frame`.
   */
  function AwaitReadSignal(frame: Array): (r: Result<Signal>)
    requires frame.Valid()
    ensures r.Success? <==> frame.Rank() == 2
    ensures r.Success? ==> r.value.data == frame && r.value.Valid()
    ensures r.Failure? ==> r.error == AssertionError(RankMessage)
  {
    NewSignal(frame)
  }
}
