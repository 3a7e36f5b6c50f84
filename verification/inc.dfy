/** `inc(fn)`: a closure that numbers its calls through `fn`. */
module Inc {

  /** The closure and the variable `i` it captures. */
  class Incrementer {
    const fn: int -> string
    var i: int

    constructor (fn: int -> string)
      ensures this.fn == fn && i == 0
    {
      this.fn := fn;
      i := 0;
    }

    /** One call: `fn(i++)`. */
    method Call() returns (s: string)
      modifies this
      ensures s == fn(old(i)) && i == old(i) + 1
    {
      s := fn(i);
      i := i + 1;
    }
  }

  /** Successive calls of one closure yield `fn(0)`, `fn(1)`, `fn(2)`; a second
      closure counts from 0 on its own. */
  method IncScript(fn: int -> string) returns (a: string, b: string, c: string, d: string)
    ensures a == fn(0) && b == fn(1) && c == fn(2)
    ensures d == fn(0)
  {
    var first := new Incrementer(fn);
    var second := new Incrementer(fn);
    a := first.Call();
    b := first.Call();
    d := second.Call();
    c := first.Call();
  }
}
