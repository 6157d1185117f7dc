/** What a route handler answers: `NextResponse.json(body, { status })`. */
module Http {

  datatype Response<T> =
    | Ok(status: int, body: T)
    | Err(status: int, error: string)
}
