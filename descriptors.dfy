/** The form check the two descriptors share for a variable-name template. */
module Descriptors {
  import opened Templates

  const TEMPLATE_ERROR := "Variable name template must contain one instance of '%s' for string population"

  /** `hudson.util.FormValidation`, reduced to its two kinds used here. */
  datatype FormValidation = FormOk | FormError(message: string)

  /** `DescriptorImpl.doCheckVarNameTemplate(value)`: an empty field or a
      valid template passes; anything else is an error with a fixed text. */
  method DoCheckVarNameTemplate(value: string) returns (v: FormValidation)
    ensures v.FormOk? <==> value == [] || ValidTemplate(value)
    ensures v.FormError? ==> v.message == TEMPLATE_ERROR
  {
    var valid := false;
    if value != [] {
      valid := IsVarNameTemplateValid(value);
    }
    if value == [] || valid {
      return FormOk;
    }
    return FormError(TEMPLATE_ERROR);
  }
}
