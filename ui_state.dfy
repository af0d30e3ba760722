/** The state the list screen observes: the top-level view state and the pagination
    bookkeeping, with the defaults the controller starts from. */
module UiStates {
  import opened Models

  /** Exactly one of: loading (no payload), the data shown, or an error message. */
  datatype UiState<T> = Loading | Success(data: T) | Error(message: string)

  datatype PaginationState = PaginationState(
    currentPage: Int32 := 0,
    hasNextPage: bool := true,
    isLoadingNextPage: bool := false,
    totalPages: Int32 := 0)

  /** `PaginationState()`: page 0, more pages assumed, nothing loading, no page count yet. */
  function DefaultPaginationState(): (r: PaginationState)
    ensures r.currentPage == 0 && r.hasNextPage && !r.isLoadingNextPage && r.totalPages == 0
  {
    PaginationState()
  }

  /** `copy(isLoadingNextPage = b)`: sets that flag and keeps every other field. */
  function WithLoadingNextPage(s: PaginationState, b: bool): (r: PaginationState)
    ensures r.isLoadingNextPage == b
    ensures r.currentPage == s.currentPage && r.hasNextPage == s.hasNextPage
    ensures r.totalPages == s.totalPages
  {
    s.(isLoadingNextPage := b)
  }

  /** Success and Error give back exactly what they were built with. */
  lemma UiStatePayloads<T>(data: T, message: string)
    ensures var s: UiState<T> := Success(data); s.Success? && !s.Loading? && !s.Error? && s.data == data
    ensures var e: UiState<T> := Error(message); e.Error? && !e.Loading? && !e.Success? && e.message == message
  {
  }
}
