/** Optional values, results and the errors an endpoint can end with. */
module Erros {

  /** A value that may be absent (a nullable foreign key, a `.first()` on an empty queryset). */
  datatype Option<+T> = None | Some(value: T)

  /** The outcome of an endpoint or validator: a value, or the error that aborts the request. */
  datatype Result<+T> = Success(value: T) | Failure(error: ApiError)

  /** The reason given with an `HttpError(400, ...)`. */
  datatype Motivo400 =
    | SaidaSuperiorAoEstocado   // exit larger than the stored quantity
    | QuantidadeZero            // movement of quantity zero
    | ItemComMovimentacao       // stock item still referenced by a movement
    | ArmazemComItens           // warehouse still referenced by a stock item
    | ProdutoEmEstoque          // product still referenced by a stock item

  /** The cause of an exception the endpoints do not catch (a server error). */
  datatype Causa500 =
    | ArmazemNulo         // attribute access on the `None` of an empty `.first()`
    | ResponsavelNulo     // saving a movement whose non-null `responsavel` is `None`
    | ChaveDuplicada      // the generated primary key is already in the table
    | ChaveEstrangeira    // a foreign key that points at no row

  datatype ApiError =
    | NaoEncontrado            // `get_object_or_404` found nothing
    | NaoAutenticado           // `AuthenticationError` from the permission check
    | TipoNaoPermitido         // `ValidationError` from the movement-type validator
    | CampoObrigatorio         // a required field missing from a request body
    | Http400(motivo: Motivo400)
    | ErroInterno(causa: Causa500)
}
