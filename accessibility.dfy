/**
 * The input and output shapes of the accessibility-UI operation
 * (src/ai/flows/adaptive-accessibility-ui.ts). The schema's enums become datatypes,
 * so enum membership holds by construction.
 */
module Accessibility {

  /** `vision: 'none' | 'low' | 'moderate' | 'severe'` */
  datatype VisionNeed = None | Low | Moderate | Severe

  /** `motor` and `cognitive`: `'none' | 'mild' | 'moderate' | 'severe'` */
  datatype Severity = None | Mild | Moderate | Severe

  /** `preferredCommunicationMode: 'text' | 'speech' | 'sign'` */
  datatype CommunicationMode = Text | Speech | Sign

  datatype AccessibilityNeeds = AccessibilityNeeds(vision: VisionNeed, motor: Severity, cognitive: Severity)

  datatype AdaptAccessibilityUIInput =
    AdaptAccessibilityUIInput(accessibilityNeeds: AccessibilityNeeds, preferredCommunicationMode: CommunicationMode)

  datatype AdaptAccessibilityUIOutput = AdaptAccessibilityUIOutput(
    fontSize: string,
    contrastLevel: string,
    voiceNavigationEnabled: bool,
    gestureControlEnabled: bool,
    signLanguageSupport: bool,
    preferredLanguage: string)
}
