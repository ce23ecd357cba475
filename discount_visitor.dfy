/** The Visitor discount calculator.

    Customers and employees are the elements; a discount visitor assigns each
    element it visits a discount and adds that discount to a running total; a
    container passes a visitor over all its employees and then all its
    customers. Names, ordered amounts and years of employment are set only
    when an element is built, so they are `const` here and no visit can change
    them. */
module DiscountVisitors {

  /** A customer's discount: a tenth of the amount ordered. */
  function CustomerDiscount(amountOrdered: real): (d: real)
    ensures 10.0 * d == amountOrdered
  {
    amountOrdered / 10.0
  }

  /** An employee's discount: 100 below ten years of employment, 200 from ten years on. */
  function EmployeeDiscount(yearsEmployed: int): (d: real)
    ensures d == 100.0 || d == 200.0
    ensures d == 200.0 <==> yearsEmployed >= 10
  {
    if yearsEmployed < 10 then 100.0 else 200.0
  }

  /** The discounts of a list of employees, added up. */
  function EmployeeDiscountTotal(es: seq<Employee>): real
    decreases |es|
  {
    if es == [] then 0.0
    else EmployeeDiscountTotal(es[..|es| - 1]) + EmployeeDiscount(es[|es| - 1].yearsEmployed)
  }

  /** The discounts of a list of customers, added up. */
  function CustomerDiscountTotal(cs: seq<Customer>): real
    decreases |cs|
  {
    if cs == [] then 0.0
    else CustomerDiscountTotal(cs[..|cs| - 1]) + CustomerDiscount(cs[|cs| - 1].amountOrdered)
  }

  /** The amounts a list of customers ordered, added up. */
  function AmountOrderedTotal(cs: seq<Customer>): real
    decreases |cs|
  {
    if cs == [] then 0.0 else AmountOrderedTotal(cs[..|cs| - 1]) + cs[|cs| - 1].amountOrdered
  }

  /** Customers together receive a tenth of all they ordered. */
  lemma {:induction false} CustomerDiscountTotalIsTenth(cs: seq<Customer>)
    ensures 10.0 * CustomerDiscountTotal(cs) == AmountOrderedTotal(cs)
    decreases |cs|
  {
    if cs != [] {
      CustomerDiscountTotalIsTenth(cs[..|cs| - 1]);
    }
  }

  /** Employees together receive between 100 and 200 each. */
  lemma {:induction false} EmployeeDiscountTotalBounds(es: seq<Employee>)
    ensures 100.0 * |es| as real <= EmployeeDiscountTotal(es) <= 200.0 * |es| as real
    decreases |es|
  {
    if es != [] {
      EmployeeDiscountTotalBounds(es[..|es| - 1]);
    }
  }

  class Customer {
    const name: string
    const amountOrdered: real
    var discount: real

    constructor (name: string, amountOrdered: real)
      ensures this.name == name && this.amountOrdered == amountOrdered && discount == 0.0
    {
      this.name := name;
      this.amountOrdered := amountOrdered;
      discount := 0.0;
    }

    /** The customer lets the visitor visit it. */
    method Accept(visitor: DiscountVisitor)
      modifies this, visitor
      ensures discount == CustomerDiscount(amountOrdered)
      ensures visitor.totalDiscountGiven == old(visitor.totalDiscountGiven) + discount
    {
      visitor.Visit(CustomerElement(this));
    }
  }

  class Employee {
    const name: string
    const yearsEmployed: int
    var discount: real

    constructor (name: string, yearsEmployed: int)
      ensures this.name == name && this.yearsEmployed == yearsEmployed && discount == 0.0
    {
      this.name := name;
      this.yearsEmployed := yearsEmployed;
      discount := 0.0;
    }

    /** The employee lets the visitor visit it. */
    method Accept(visitor: DiscountVisitor)
      modifies this, visitor
      ensures discount == EmployeeDiscount(yearsEmployed)
      ensures visitor.totalDiscountGiven == old(visitor.totalDiscountGiven) + discount
    {
      visitor.Visit(EmployeeElement(this));
    }
  }

  /** An element handed to a visitor: a customer, an employee, or an element
      of some other kind. */
  datatype Element =
    | CustomerElement(customer: Customer)
    | EmployeeElement(employee: Employee)
    | OtherElement

  /** The object a visit may change besides the visitor. */
  function Target(element: Element): set<object> {
    match element
    case CustomerElement(c) => {c}
    case EmployeeElement(e) => {e}
    case OtherElement => {}
  }

  class DiscountVisitor {
    var totalDiscountGiven: real

    constructor ()
      ensures totalDiscountGiven == 0.0
    {
      totalDiscountGiven := 0.0;
    }

    /** Dispatches on the kind of element; other kinds are left alone. */
    method Visit(element: Element)
      modifies this, Target(element)
      ensures element.CustomerElement? ==>
        element.customer.discount == CustomerDiscount(element.customer.amountOrdered) &&
        totalDiscountGiven == old(totalDiscountGiven) + element.customer.discount
      ensures element.EmployeeElement? ==>
        element.employee.discount == EmployeeDiscount(element.employee.yearsEmployed) &&
        totalDiscountGiven == old(totalDiscountGiven) + element.employee.discount
      ensures element.OtherElement? ==> totalDiscountGiven == old(totalDiscountGiven)
    {
      match element
      case CustomerElement(c) => VisitCustomer(c);
      case EmployeeElement(e) => VisitEmployee(e);
      case OtherElement =>
    }

    /** The customer's discount is overwritten, and added to the total. */
    method VisitCustomer(customer: Customer)
      modifies this, customer
      ensures customer.discount == CustomerDiscount(customer.amountOrdered)
      ensures totalDiscountGiven == old(totalDiscountGiven) + customer.discount
    {
      var discount := customer.amountOrdered / 10.0;
      customer.discount := discount;
      totalDiscountGiven := totalDiscountGiven + discount;
    }

    /** The employee's discount is overwritten, and added to the total. */
    method VisitEmployee(employee: Employee)
      modifies this, employee
      ensures employee.discount == EmployeeDiscount(employee.yearsEmployed)
      ensures totalDiscountGiven == old(totalDiscountGiven) + employee.discount
    {
      var discount := if employee.yearsEmployed < 10 then 100.0 else 200.0;
      employee.discount := discount;
      totalDiscountGiven := totalDiscountGiven + discount;
    }
  }

  class Container {
    var employees: seq<Employee>
    var customers: seq<Customer>

    constructor ()
      ensures employees == [] && customers == []
    {
      employees := [];
      customers := [];
    }

    /** Passes the visitor over every employee, then over every customer. */
    method Accept(visitor: DiscountVisitor)
      modifies visitor, employees, customers
      ensures visitor.totalDiscountGiven ==
        old(visitor.totalDiscountGiven) + EmployeeDiscountTotal(employees) + CustomerDiscountTotal(customers)
      ensures forall k :: 0 <= k < |employees| ==>
        employees[k].discount == EmployeeDiscount(employees[k].yearsEmployed)
      ensures forall k :: 0 <= k < |customers| ==>
        customers[k].discount == CustomerDiscount(customers[k].amountOrdered)
    {
      var i := 0;
      while i < |employees|
        invariant 0 <= i <= |employees|
        invariant visitor.totalDiscountGiven ==
          old(visitor.totalDiscountGiven) + EmployeeDiscountTotal(employees[..i])
        invariant forall k :: 0 <= k < i ==>
          employees[k].discount == EmployeeDiscount(employees[k].yearsEmployed)
      {
        employees[i].Accept(visitor);
        assert employees[..i + 1][..i] == employees[..i];
        i := i + 1;
      }
      assert employees[..i] == employees;
      var j := 0;
      while j < |customers|
        invariant 0 <= j <= |customers|
        invariant visitor.totalDiscountGiven ==
          old(visitor.totalDiscountGiven) + EmployeeDiscountTotal(employees) + CustomerDiscountTotal(customers[..j])
        invariant forall k :: 0 <= k < |employees| ==>
          employees[k].discount == EmployeeDiscount(employees[k].yearsEmployed)
        invariant forall k :: 0 <= k < j ==>
          customers[k].discount == CustomerDiscount(customers[k].amountOrdered)
      {
        customers[j].Accept(visitor);
        assert customers[..j + 1][..j] == customers[..j];
        j := j + 1;
      }
      assert customers[..j] == customers;
    }
  }

  /** The example program: three customers and two employees. The total is
      50 + 100 + 80 for the customers and 200 + 100 for the employees. */
  method SampleTotalDiscount() returns (total: real)
    ensures total == 530.0
  {
    var container := new Container();
    var sophie := new Customer("Sophie", 500.0);
    var karen := new Customer("Karen", 1000.0);
    var sven := new Customer("Sven", 800.0);
    var kevin := new Employee("Kevin", 18);
    var tom := new Employee("Tom", 5);
    container.customers := [sophie, karen, sven];
    container.employees := [kevin, tom];
    var visitor := new DiscountVisitor();
    container.Accept(visitor);
    assert [kevin, tom][..1] == [kevin] && [kevin][..0] == [];
    assert EmployeeDiscountTotal([kevin]) == 200.0;
    assert EmployeeDiscountTotal([kevin, tom]) == 300.0;
    assert [sophie, karen, sven][..2] == [sophie, karen];
    assert [sophie, karen][..1] == [sophie] && [sophie][..0] == [];
    assert CustomerDiscountTotal([sophie]) == 50.0;
    assert CustomerDiscountTotal([sophie, karen]) == 150.0;
    assert CustomerDiscountTotal([sophie, karen, sven]) == 230.0;
    total := visitor.totalDiscountGiven;
  }

  /** Visiting a customer twice leaves the same discount on it but counts it twice. */
  method RevisitCustomer(customer: Customer, visitor: DiscountVisitor) returns (first: real, second: real)
    modifies customer, visitor
    ensures first == second == CustomerDiscount(customer.amountOrdered)
    ensures visitor.totalDiscountGiven == old(visitor.totalDiscountGiven) + 2.0 * first
  {
    customer.Accept(visitor);
    first := customer.discount;
    customer.Accept(visitor);
    second := customer.discount;
  }
}
