/** Answers of the outside world that the model does not determine. */
module Choice {
  method Decide() returns (b: bool) {
    b := *;
  }
}

/** Counting by indicator. */
module Indicator {
  function One(b: bool): nat {
    if b then 1 else 0
  }
}
