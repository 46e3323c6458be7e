/**
 * Abstract outcomes of the foreign calls the execution chain makes: the text-generation
 * stream, the image-generation request and the random seed. Each call is given to the model
 * as the value the network (or `Math.random`) produced, so the adapters can be stated on it.
 */
module Backend {
  import opened Js

  /** What the reader loop of a text request observed. */
  datatype TextCall =
    | FetchFailed(message: string)                          // `fetch` rejected with this message
    | NoBody                                                // a response without a body
    | Body(chunks: seq<string>, readError: Option<string>)  // decoded chunks, then done or a read error

  /** What an image request (`txt2img` or `img2img`) observed. */
  datatype ImageCall =
    | RequestFailed(message: string)       // `fetch` or `res.json()` rejected with this message
    | Responded(status: nat, image: string) // HTTP status and `data.images[0]`

  /** `res.ok`. */
  predicate HttpOk(status: nat) {
    200 <= status <= 299
  }

  /** How an adapter finished: with a return value or by throwing an Error with a message. */
  datatype Outcome = Returned(value: string) | Threw(message: string)

  /** What one backend would answer at one step of a run. */
  datatype Backends = Backends(text: TextCall, image: ImageCall, random: real)

  predicate IsRandom(r: real) {
    0.0 <= r < 1.0
  }

  /** `Math.floor(Math.random() * 1000000000)`, for a value `random` of `Math.random()`. */
  function Seed(random: real): (seed: int)
    ensures IsRandom(random) ==> 0 <= seed < 1000000000
  {
    (random * 1000000000.0).Floor
  }
}
