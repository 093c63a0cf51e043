/**
 * The client-side paths the core navigates to: the login page (the redirect
 * target of client.ts:35 and ProtectedRoute.tsx:33) and the home page
 * (Login.tsx:45).
 */
module Paths {
  const LoginPath := "/login"
  const HomePath := "/"
}
