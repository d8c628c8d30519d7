/** The signed-in user as the pages see it through the authentication
    context. The context itself (session restore, sign-in, sign-up,
    sign-out) is remote and not part of this model; pages receive its
    `user` and `loading` values as inputs. */
module Session {

  datatype User = User(id: string, email: string)
}
