// Stream identity (src/market_data_service/domain/identity.py).

module Streams {
  import opened Grid

  datatype StreamKey = StreamKey(ticker: string, timeframe: Timeframe) {
    function Step(): (step: int)
      ensures step > 0
    {
      DurationMs(timeframe)
    }
  }
}
