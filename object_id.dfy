/** The MongoDB ObjectId test `/^[0-9a-fA-F]{24}$/` and the model id the
    analysis request sends to the backend. */
module ObjectIds {

  predicate IsHexDigit(c: char) {
    ('0' <= c <= '9') || ('a' <= c <= 'f') || ('A' <= c <= 'F')
  }

  /** `/^[0-9a-fA-F]{24}$/.test(s)` */
  predicate IsObjectId(s: string) {
    |s| == 24 && forall i :: 0 <= i < |s| ==> IsHexDigit(s[i])
  }

  /** The selected model id as sent with an analysis request: kept when it
      is an ObjectId, replaced by `''` (the backend's default model)
      otherwise; an empty id stays empty. */
  function BackendModelId(selectedModelId: string): (id: string)
    ensures id == "" || IsObjectId(id)
    ensures IsObjectId(selectedModelId) <==> id == selectedModelId && id != ""
  {
    if selectedModelId == "" then ""
    else if IsObjectId(selectedModelId) then selectedModelId
    else ""
  }

  /** Choosing the backend id twice changes nothing. */
  lemma BackendModelIdIdempotent(selectedModelId: string)
    ensures BackendModelId(BackendModelId(selectedModelId)) == BackendModelId(selectedModelId)
  {
  }
}
