/** How an admin screen obtains its error-handling hook from
    `components/ErrorHandler`: a named ES-module import binds the export of
    that name, or `undefined` when the module has none (the bundler only
    warns), and the screen calls the binding as the first statement of its
    render. */
module ScreenImports {
  /** The names `components/ErrorHandler.js` exports; it has no default
      export. */
  const ErrorHandlerExports: set<string> :=
    {"getErrorMessage", "setupAxiosInterceptors", "useErrorHandler", "retryRequest", "setupLoadingListener"}

  /** What a named import binds to. */
  datatype Binding = Defined(name: string) | Undefined

  /** `import { name } from "…/ErrorHandler"`. */
  function ImportNamed(exports: set<string>, name: string): (r: Binding)
    ensures r.Defined? <==> name in exports
    ensures r.Defined? ==> r.name == name
  {
    if name in exports then Defined(name) else Undefined
  }

  datatype Render = Rendered | ThrewTypeError

  /** `const { handleError, … } = hook();` at the top of the component:
      calling `undefined` throws a TypeError, so the component never renders
      and none of its effects or handlers run; the hook itself returns the
      handler object. */
  function RenderScreen(hook: Binding): (r: Render)
    ensures r == ThrewTypeError <==> hook.Undefined?
  {
    if hook.Undefined? then ThrewTypeError else Rendered
  }

  /** The name AdminUserDetail, AdminReviewManage, AdminJobPostManage,
      AdminApplicationsManage, AdminCompanyDetail and AdminNoticeEdit
      import; `service/apiAdminService.js` imports it too and calls it in
      its response-error interceptor, where the TypeError replaces the
      request's error. */
  const ImportedAsWritten: string := "ErrorHandler"

  /** The name the other admin screens import, the hook the module defines. */
  const ImportedIntended: string := "useErrorHandler"

  /** As written, those six screens throw on their first render: the module
      exports no `ErrorHandler`. */
  lemma {:induction false} AsWrittenScreensThrow()
    ensures ImportNamed(ErrorHandlerExports, ImportedAsWritten) == Undefined
    ensures RenderScreen(ImportNamed(ErrorHandlerExports, ImportedAsWritten)) == ThrewTypeError
  {
    assert ImportedAsWritten !in ErrorHandlerExports;
  }

  /** With the hook's own name every screen renders; the screen models of
      this project assume this import. */
  lemma {:induction false} IntendedScreensRender()
    ensures ImportNamed(ErrorHandlerExports, ImportedIntended) == Defined("useErrorHandler")
    ensures RenderScreen(ImportNamed(ErrorHandlerExports, ImportedIntended)) == Rendered
  {
    assert ImportedIntended in ErrorHandlerExports;
  }
}
