/** What an Express handler sends: `res.json(body)` with status 200, or
    `res.status(code).json({ error })`. */
module Http {
  datatype Response<+B> = Ok(body: B) | ErrorResponse(status: int, error: string)
}
