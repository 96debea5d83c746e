/** The outcome of one `generateContent` call to the hosted text model, as
    the routes observe it: the call threw, it resolved without a
    `response.text` accessor, or `response.text()` produced a string. */
module Upstream {

  datatype Generation = Threw | NoText | Generated(text: string)
}
