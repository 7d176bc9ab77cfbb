/** The request and response records of the HTTP client. */
module HttpTypes {

  /** A header or query-parameter row of the editor. */
  datatype Row = Row(key: string, value: string, enabled: bool)

  type Header = Row

  type Param = Row

  datatype FieldKind = TextField | FileField

  /** A form-body row; a "file" row still contributes only its `value` string. */
  datatype FormDataItem = FormDataItem(key: string, value: string, kind: FieldKind, enabled: bool)

  /** The five body encodings; `bodyType` selects which payload field is read. */
  datatype BodyType = NoBody | Json | FormData | UrlEncoded | Raw

  datatype HttpRequest = HttpRequest(
    id: string,
    name: string,
    httpMethod: string,  // `method` in the source; a keyword here
    url: string,
    params: seq<Param>,
    headers: seq<Header>,
    bodyType: BodyType,
    jsonBody: string,
    formData: seq<FormDataItem>,
    rawBody: string,
    timestamp: int)

  datatype HttpResponse = HttpResponse(
    status: int,
    statusText: string,
    headers: map<string, string>,
    body: string,
    responseTime: int)
}
