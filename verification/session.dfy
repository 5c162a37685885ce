/**
 * The signed-in user as the frontend sees it. The components do not ask the
 * session for it: the submission form posts `user_id: 2` and the message list
 * compares `sender_id` with `2`, both as literals. The model keeps that literal,
 * defined once here.
 */
module Session {

  const CurrentUserId: int := 2
}
