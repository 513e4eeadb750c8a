/** The HTTP vocabulary the views and permissions share. */
module Http {
  datatype Method = GET | HEAD | OPTIONS | POST | PUT | PATCH | DELETE

  /** Django REST framework's `SAFE_METHODS`. */
  predicate IsSafe(m: Method) {
    m == GET || m == HEAD || m == OPTIONS
  }

  const StatusOk := 200
  const StatusCreated := 201
  const StatusBadRequest := 400
  const StatusForbidden := 403
  const StatusNotFound := 404
  /** An error the view does not catch. */
  const StatusServerError := 500
}
