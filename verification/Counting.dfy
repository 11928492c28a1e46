/** Counters by id. */
module Counting {

  function Count(m: map<string, nat>, id: string): nat {
    if id in m then m[id] else 0
  }

  function Bump(m: map<string, nat>, id: string): map<string, nat> {
    m[id := Count(m, id) + 1]
  }
}
