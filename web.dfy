/** The browser-side state and values the frontend pages share: local
    storage and the current location, the outcome of an awaited HTTP call,
    and the department records the pages list. */
module Web {
  import opened Values

  /** `localStorage` and the location the router or `window.location` shows. */
  class Browser {
    var storage: map<string, string>
    var location: string

    constructor (storage: map<string, string>, location: string)
      ensures this.storage == storage && this.location == location
    {
      this.storage := storage;
      this.location := location;
    }
  }

  /** `localStorage.getItem(key)`, null (None) when absent. */
  function Item(storage: map<string, string>, key: string): Option<string>
  {
    if key in storage then Some(storage[key]) else None
  }

  /** What an awaited request settles to: the response body, or an error
      with the response status and `response.data.error`, when there is a
      response at all. */
  datatype Settled<T> = Resolved(data: T) | Rejected(status: Option<nat>, message: Option<string>)

  /** `err?.response?.data?.error || fallback`. */
  function ErrorText(message: Option<string>, fallback: string): (text: string)
    ensures Filled(message) ==> text == message.value
    ensures !Filled(message) ==> text == fallback
  {
    if Filled(message) then message.value else fallback
  }

  /** A department as the API returns it. */
  datatype Department = Department(id: string, name: Option<string>, description: Option<string>)
}
